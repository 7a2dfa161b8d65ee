// Signed peer heartbeats and the registry that receives them (controller/peer_sync.py).
module PeerSync {
  import opened Wrappers
  import opened Text
  import opened JsonText
  import opened Digest
  import opened HostValues

  type Message = map<string, Json>

  // A message authentication code: the hex HMAC-SHA256 of a text under a secret.
  type Mac = (string, string) -> string

  ghost predicate HexMac(mac: Mac) {
    forall secret, text :: IsHex(mac(secret, text))
  }

  datatype Key = Key(peer: string, secret: string)

  datatype Config = Config(host: Host, mac: Mac, trusted: map<string, Key>, maxAge: real, futureSkew: real)

  predicate ValidConfig(c: Config) {
    c.maxAge > 0.0 && c.futureSkew >= 0.0
  }

  const FIELDS := {"schema_version", "peer_id", "key_id", "sequence", "timestamp",
                   "software_version", "capabilities", "state", "signature"}
  const PEER_STATES := {"READY", "BUSY", "DEGRADED", "STOPPING"}

  // ---- Messages ----

  function TextsOf(items: Items): seq<string> {
    match items
    case NoItems => []
    case Item(head, tail) => (if head.Str? then [head.s] else []) + TextsOf(tail)
  }

  predicate AllTexts(items: Items) {
    match items
    case NoItems => true
    case Item(head, tail) => head.Str? && head.s != "" && AllTexts(tail)
  }

  predicate Distinct(xs: seq<string>) {
    forall i, j :: 0 <= i < j < |xs| ==> xs[i] != xs[j]
  }

  predicate NonEmptyText(j: Json) {
    j.Str? && j.s != ""
  }

  // The schema of one heartbeat.
  predicate WellFormed(host: Host, m: Message) {
    && m.Keys == FIELDS
    && !m["schema_version"].Bool? && EqualsInt(host, m["schema_version"], 1)
    && NonEmptyText(m["peer_id"]) && NonEmptyText(m["key_id"])
    && m["sequence"].Int? && m["sequence"].n >= 1
    && IsNumber(m["timestamp"])
    && NonEmptyText(m["software_version"])
    && m["capabilities"].Arr? && AllTexts(m["capabilities"].items) && Distinct(TextsOf(m["capabilities"].items))
    && m["state"].Str? && m["state"].s in PEER_STATES
    && m["signature"].Str? && |m["signature"].s| == 64
  }

  // Every check of the schema matters: a well-formed message stops being one when a single member
  // takes a value it may not have, or is missing, or when a member is added.
  lemma BadIdentityIsMalformed(host: Host, m: Message, extra: string)
    requires WellFormed(host, m) && extra !in FIELDS
    ensures !WellFormed(host, m[extra := Null]) && !WellFormed(host, m - {"sequence"})
    ensures !WellFormed(host, m["schema_version" := Bool(true)]) && !WellFormed(host, m["schema_version" := Int(2)])
    ensures !WellFormed(host, m["peer_id" := Str("")]) && !WellFormed(host, m["peer_id" := Int(1)])
    ensures !WellFormed(host, m["key_id" := Str("")]) && !WellFormed(host, m["key_id" := Int(1)])
    ensures !WellFormed(host, m["sequence" := Int(0)]) && !WellFormed(host, m["sequence" := Bool(true)])
  {
    assert extra in m[extra := Null].Keys && "sequence" !in (m - {"sequence"}).Keys;
  }

  lemma BadContentIsMalformed(host: Host, m: Message, x: string, short: string)
    requires WellFormed(host, m) && x != "" && |short| != 64
    ensures !WellFormed(host, m["timestamp" := Bool(true)]) && !WellFormed(host, m["timestamp" := Str("1")])
    ensures !WellFormed(host, m["software_version" := Str("")]) && !WellFormed(host, m["software_version" := Null])
    ensures !WellFormed(host, m["capabilities" := Str(x)]) && !WellFormed(host, m["capabilities" := Arr(Item(Str(""), NoItems))])
    ensures !WellFormed(host, m["capabilities" := Arr(Item(Str(x), Item(Str(x), NoItems)))])
    ensures !WellFormed(host, m["state" := Str("IDLE")]) && !WellFormed(host, m["state" := Int(1)])
    ensures !WellFormed(host, m["signature" := Str(short)]) && !WellFormed(host, m["signature" := Null])
  {
    var twice := Item(Str(x), Item(Str(x), NoItems));
    assert TextsOf(NoItems) == [] && TextsOf(Item(Str(x), NoItems)) == [x];
    assert TextsOf(twice) == [x] + [x];
    assert TextsOf(twice)[0] == TextsOf(twice)[1];
    assert |"IDLE"| == 4 && |"BUSY"| == 4 && "IDLE"[0] == 'I' && "BUSY"[0] == 'B';
  }

  // The members other than the signature, in key order.
  function SignedMembers(m: Message): Members
    requires m.Keys >= FIELDS - {"signature"}
  {
    Member("capabilities", m["capabilities"], Member("key_id", m["key_id"], Member("peer_id", m["peer_id"],
    Member("schema_version", m["schema_version"], SignedEnd(m)))))
  }

  function SignedEnd(m: Message): Members
    requires m.Keys >= FIELDS - {"signature"}
  {
    Member("sequence", m["sequence"], Member("software_version", m["software_version"],
    Member("state", m["state"], Member("timestamp", m["timestamp"], NoMembers))))
  }

  function SignedText(m: Message): string
    requires m.Keys >= FIELDS - {"signature"}
  {
    Dumps(Obj(SignedMembers(m)))
  }

  function PeerOf(m: Message): string
    requires "peer_id" in m && m["peer_id"].Str?
  {
    m["peer_id"].s
  }

  function SequenceOf(m: Message): int
    requires "sequence" in m && m["sequence"].Int?
  {
    m["sequence"].n
  }

  // The message was signed with a trusted key that is bound to the peer it names.
  predicate Authentic(c: Config, m: Message) {
    && WellFormed(c.host, m)
    && m["key_id"].s in c.trusted
    && var key := c.trusted[m["key_id"].s];
       key.peer == PeerOf(m) && |key.secret| >= 32 && m["signature"].s == c.mac(key.secret, SignedText(m))
  }

  function SentAt(c: Config, m: Message): real
    requires WellFormed(c.host, m)
  {
    NumberOf(c.host, m["timestamp"])
  }

  // ---- What a signature covers ----

  // Equal signed texts have equal members, each of the eight.
  lemma SignedTextBinds(a: Message, b: Message)
    requires a.Keys >= FIELDS - {"signature"} && b.Keys >= FIELDS - {"signature"} && SignedText(a) == SignedText(b)
    ensures a["schema_version"] == b["schema_version"] && a["peer_id"] == b["peer_id"] && a["key_id"] == b["key_id"]
    ensures a["sequence"] == b["sequence"] && a["timestamp"] == b["timestamp"]
    ensures a["software_version"] == b["software_version"] && a["capabilities"] == b["capabilities"]
    ensures a["state"] == b["state"]
  {
    DumpsInjective(Obj(SignedMembers(a)), Obj(SignedMembers(b)));
    var x, y := SignedMembers(a), SignedMembers(b);
    assert x.rest.rest.rest.rest == SignedEnd(a) && y.rest.rest.rest.rest == SignedEnd(b);
  }

  lemma SignedInOrder(m: Message)
    requires m.Keys >= FIELDS - {"signature"}
    ensures KeysAscend(SignedMembers(m))
  {
    var m8 := Member("timestamp", m["timestamp"], NoMembers);
    var m7 := Member("state", m["state"], m8);
    var m6 := Member("software_version", m["software_version"], m7);
    var m4 := Member("schema_version", m["schema_version"], SignedEnd(m));
    var m3 := Member("peer_id", m["peer_id"], m4);
    Ascends("state", m["state"], m8, 0);
    Ascends("software_version", m["software_version"], m7, 1);
    Ascends("sequence", m["sequence"], m6, 1);
    Ascends("schema_version", m["schema_version"], SignedEnd(m), 1);
    Ascends("peer_id", m["peer_id"], m4, 0);
    Ascends("key_id", m["key_id"], m3, 0);
    Ascends("capabilities", m["capabilities"], Member("key_id", m["key_id"], m3), 0);
  }

  lemma EndHolds(m: Message, key: string)
    requires m.Keys >= FIELDS - {"signature"}
    ensures HasKey(SignedEnd(m), key) <==> key in {"sequence", "software_version", "state", "timestamp"}
    ensures HasKey(SignedEnd(m), key) ==> Lookup(SignedEnd(m), key) == m[key]
  {
    var m8 := Member("timestamp", m["timestamp"], NoMembers);
    var m7 := Member("state", m["state"], m8);
    assert HasKey(m8, key) <==> key == "timestamp";
    assert HasKey(m8, key) ==> Lookup(m8, key) == m[key];
    assert HasKey(m7, key) <==> key == "state" || HasKey(m8, key);
    assert HasKey(m7, key) ==> Lookup(m7, key) == m[key];
    var m6 := Member("software_version", m["software_version"], m7);
    assert HasKey(m6, key) <==> key == "software_version" || HasKey(m7, key);
    assert HasKey(m6, key) ==> Lookup(m6, key) == m[key];
  }

  lemma SignedHolds(m: Message, key: string)
    requires m.Keys >= FIELDS - {"signature"}
    ensures HasKey(SignedMembers(m), key) <==> key in FIELDS - {"signature"}
    ensures HasKey(SignedMembers(m), key) ==> Lookup(SignedMembers(m), key) == m[key]
  {
    EndHolds(m, key);
    var m4 := Member("schema_version", m["schema_version"], SignedEnd(m));
    var m3 := Member("peer_id", m["peer_id"], m4);
    assert HasKey(m4, key) <==> key == "schema_version" || HasKey(SignedEnd(m), key);
    assert HasKey(m4, key) ==> Lookup(m4, key) == m[key];
    assert HasKey(m3, key) <==> key == "peer_id" || HasKey(m4, key);
    assert HasKey(m3, key) ==> Lookup(m3, key) == m[key];
    var m2 := Member("key_id", m["key_id"], m3);
    assert HasKey(m2, key) <==> key == "key_id" || HasKey(m3, key);
    assert HasKey(m2, key) ==> Lookup(m2, key) == m[key];
  }

  // The signed text is the canonical text of one JSON value only: the object that has the message's
  // members other than the signature, and no other, its keys in order.
  lemma SignedTextMeaning(m: Message, j: Json, key: string)
    requires m.Keys == FIELDS && Dumps(j) == SignedText(m)
    ensures j.Obj? && KeysAscend(j.members)
    ensures HasKey(j.members, key) <==> key in m && key != "signature"
    ensures HasKey(j.members, key) ==> Lookup(j.members, key) == m[key]
  {
    DumpsInjective(j, Obj(SignedMembers(m)));
    SignedInOrder(m);
    SignedHolds(m, key);
  }

  // The code has no collision between these two messages' texts under their keys.
  ghost predicate NoCollision(c: Config, a: Message, b: Message)
    requires WellFormed(c.host, a) && WellFormed(c.host, b)
  {
    a["key_id"].s in c.trusted && b["key_id"].s in c.trusted
    && c.mac(c.trusted[a["key_id"].s].secret, SignedText(a)) == c.mac(c.trusted[b["key_id"].s].secret, SignedText(b))
    ==> SignedText(a) == SignedText(b)
  }

  // Two authentic messages with one signature are the same message.
  lemma SignatureBinds(c: Config, a: Message, b: Message)
    requires Authentic(c, a) && Authentic(c, b) && a["signature"] == b["signature"] && NoCollision(c, a, b)
    ensures a == b
  {
    SignedTextBinds(a, b);
    assert a.Keys == b.Keys == FIELDS;
    forall key | key in FIELDS ensures a[key] == b[key] {}
  }

  // ---- Sending ----

  function Insert(x: string, xs: seq<string>): (r: seq<string>)
    ensures multiset(r) == multiset(xs) + multiset{x}
  {
    if xs == [] || !TextLess(xs[0], x) then [x] + xs
    else
      assert xs == [xs[0]] + xs[1..];
      [xs[0]] + Insert(x, xs[1..])
  }

  function Sorted(xs: seq<string>): (r: seq<string>)
    ensures multiset(r) == multiset(xs)
  {
    if xs == [] then []
    else
      assert xs == [xs[0]] + xs[1..];
      Insert(xs[0], Sorted(xs[1..]))
  }

  predicate InOrder(xs: seq<string>) {
    forall i :: 0 < i < |xs| ==> !TextLess(xs[i], xs[i - 1])
  }

  lemma {:induction false} LessIsStrict(a: string, b: string)
    requires TextLess(a, b)
    ensures !TextLess(b, a)
  {
    if a != "" && a[0] == b[0] {
      LessIsStrict(a[1..], b[1..]);
    }
  }

  lemma {:induction false} InsertKeepsOrder(x: string, xs: seq<string>)
    requires InOrder(xs)
    ensures InOrder(Insert(x, xs)) && Insert(x, xs) != []
    ensures Insert(x, xs)[0] == x || (xs != [] && Insert(x, xs)[0] == xs[0])
  {
    if xs != [] && TextLess(xs[0], x) {
      var tail := xs[1..];
      assert forall i :: 0 < i < |tail| ==> tail[i] == xs[i + 1] && tail[i - 1] == xs[i];
      InsertKeepsOrder(x, tail);
      LessIsStrict(xs[0], x);
      var r, rest := Insert(x, xs), Insert(x, tail);
      assert r == [xs[0]] + rest;
      forall i | 0 < i < |r| ensures !TextLess(r[i], r[i - 1]) {
        if i > 1 {
          assert r[i] == rest[i - 1] && r[i - 1] == rest[i - 2];
        } else if rest[0] != x {
          assert rest[0] == xs[1];
        }
      }
    } else if xs != [] {
      var r := Insert(x, xs);
      assert r == [x] + xs;
      forall i | 0 < i < |r| ensures !TextLess(r[i], r[i - 1]) {
        if i > 1 {
          assert r[i] == xs[i - 1] && r[i - 1] == xs[i - 2];
        }
      }
    }
  }

  lemma {:induction false} SortedInOrder(xs: seq<string>)
    ensures InOrder(Sorted(xs))
  {
    if xs != [] {
      SortedInOrder(xs[1..]);
      InsertKeepsOrder(xs[0], Sorted(xs[1..]));
    }
  }

  function ItemsOf(xs: seq<string>): (items: Items)
    ensures TextsOf(items) == xs
    ensures AllTexts(items) <==> "" !in xs
  {
    if xs == [] then NoItems else Item(Str(xs[0]), ItemsOf(xs[1..]))
  }

  lemma {:induction false} DistinctByMultiset(xs: seq<string>)
    ensures Distinct(xs) <==> forall x :: x in multiset(xs) ==> multiset(xs)[x] == 1
  {
    if xs != [] {
      var head, tail := xs[0], xs[1..];
      assert xs == [head] + tail;
      DistinctByMultiset(tail);
      assert forall x :: multiset(xs)[x] == multiset(tail)[x] + if x == head then 1 else 0;
      assert forall j :: 0 < j < |xs| ==> xs[j] == tail[j - 1];
      assert forall j :: 0 <= j < |tail| ==> tail[j] == xs[j + 1];
      assert Distinct(xs) <==> head !in tail && Distinct(tail);
    }
  }

  function Unsigned(peer: string, keyId: string, sequence: int, version: string, capabilities: seq<string>,
                    state: string, sentAt: FloatText): Message {
    map["schema_version" := Int(1), "peer_id" := Str(peer), "key_id" := Str(keyId), "sequence" := Int(sequence),
        "timestamp" := Float(sentAt), "software_version" := Str(version),
        "capabilities" := Arr(ItemsOf(Sorted(capabilities))), "state" := Str(state)]
  }

  // None stands for the HeartbeatError.
  function CreateHeartbeat(mac: Mac, secret: string, peer: string, keyId: string, sequence: int, version: string,
                           capabilities: seq<string>, state: string, sentAt: FloatText): Option<Message> {
    if |secret| < 32 || peer == "" || keyId == "" || version == "" || sequence < 1 || state !in PEER_STATES
       || "" in capabilities || !Distinct(capabilities) then None
    else
      var m := Unsigned(peer, keyId, sequence, version, capabilities, state, sentAt);
      Some(m["signature" := Str(mac(secret, SignedText(m)))])
  }

  lemma SortingKeepsChecks(capabilities: seq<string>)
    requires "" !in capabilities && Distinct(capabilities)
    ensures AllTexts(ItemsOf(Sorted(capabilities))) && Distinct(TextsOf(ItemsOf(Sorted(capabilities))))
  {
    var sorted := Sorted(capabilities);
    DistinctByMultiset(capabilities);
    DistinctByMultiset(sorted);
    assert "" in sorted <==> "" in multiset(sorted);
    assert "" in capabilities <==> "" in multiset(capabilities);
  }

  // The schema of a heartbeat before it is signed.
  predicate UnsignedShape(m: Message) {
    && m.Keys == FIELDS - {"signature"}
    && m["schema_version"] == Int(1) && NonEmptyText(m["peer_id"]) && NonEmptyText(m["key_id"])
    && m["sequence"].Int? && m["sequence"].n >= 1 && m["timestamp"].Float? && NonEmptyText(m["software_version"])
    && m["capabilities"].Arr? && AllTexts(m["capabilities"].items) && Distinct(TextsOf(m["capabilities"].items))
    && m["state"].Str? && m["state"].s in PEER_STATES
  }

  lemma UnsignedIsShaped(peer: string, keyId: string, sequence: int, version: string, capabilities: seq<string>,
                         state: string, sentAt: FloatText)
    requires peer != "" && keyId != "" && version != "" && sequence >= 1 && state in PEER_STATES
    requires "" !in capabilities && Distinct(capabilities)
    ensures var m := Unsigned(peer, keyId, sequence, version, capabilities, state, sentAt);
      && UnsignedShape(m) && m["peer_id"] == Str(peer) && m["key_id"] == Str(keyId)
      && m["sequence"] == Int(sequence) && m["timestamp"] == Float(sentAt)
  {
    SortingKeepsChecks(capabilities);
    assert Unsigned(peer, keyId, sequence, version, capabilities, state, sentAt).Keys == FIELDS - {"signature"};
  }

  // Adding the signature leaves the signed members as they are.
  lemma SigningKeepsShape(host: Host, m: Message, signature: string)
    requires UnsignedShape(m) && |signature| == 64
    ensures WellFormed(host, m["signature" := Str(signature)])
    ensures SignedText(m["signature" := Str(signature)]) == SignedText(m)
  {
    assert m["signature" := Str(signature)].Keys == FIELDS;
  }

  lemma SignedIsAuthentic(c: Config, m: Message, key: Key)
    requires HexMac(c.mac) && UnsignedShape(m) && |key.secret| >= 32
    requires m["key_id"].s in c.trusted && c.trusted[m["key_id"].s] == key && key.peer == m["peer_id"].s
    ensures var signed := m["signature" := Str(c.mac(key.secret, SignedText(m)))];
      Authentic(c, signed) && SignedText(signed) == SignedText(m)
  {
    assert IsHex(c.mac(key.secret, SignedText(m)));
    SigningKeepsShape(c.host, m, c.mac(key.secret, SignedText(m)));
  }

  // The rest of what a heartbeat says, its capabilities in order.
  ghost predicate Carries(m: Message, version: string, capabilities: seq<string>, state: string) {
    && m.Keys == FIELDS && m["software_version"] == Str(version) && m["state"] == Str(state)
    && m["schema_version"] == Int(1) && m["capabilities"].Arr?
    && multiset(TextsOf(m["capabilities"].items)) == multiset(capabilities) && InOrder(TextsOf(m["capabilities"].items))
  }

  // A created heartbeat is authentic for every registry that binds its key to its peer.
  lemma CreatedIsAuthentic(c: Config, secret: string, peer: string, keyId: string, sequence: int, version: string,
                           capabilities: seq<string>, state: string, sentAt: FloatText)
    requires HexMac(c.mac)
    requires keyId in c.trusted && c.trusted[keyId] == Key(peer, secret)
    ensures var m := CreateHeartbeat(c.mac, secret, peer, keyId, sequence, version, capabilities, state, sentAt);
      m.Some? ==> Authentic(c, m.value) && PeerOf(m.value) == peer && SequenceOf(m.value) == sequence
                  && SentAt(c, m.value) == c.host.floatValue(sentAt) && Carries(m.value, version, capabilities, state)
  {
    SortedInOrder(capabilities);
    if CreateHeartbeat(c.mac, secret, peer, keyId, sequence, version, capabilities, state, sentAt).Some? {
      UnsignedIsShaped(peer, keyId, sequence, version, capabilities, state, sentAt);
      SignedIsAuthentic(c, Unsigned(peer, keyId, sequence, version, capabilities, state, sentAt), Key(peer, secret));
    }
  }

  // ---- The registry ----

  datatype Status = Alive | Stale | Invalid

  datatype Reason = Malformed | UnknownKey | WrongPeer | BadKeyMaterial | BadSignature | TooFarInFuture | Replay
                  | TooOld | Verified | NotSeenAgain

  datatype PeerResult = PeerResult(peer: Option<string>, status: Status, reason: Reason, sequence: Option<int>)

  // compare_digest raises TypeError for a non-ASCII signature, outside receive's handler.
  datatype Outcome = Returned(result: PeerResult) | Raised

  datatype State = State(lastSequence: map<string, int>, states: map<string, PeerResult>, acceptedAt: map<string, real>)

  const EMPTY := State(map[], map[], map[])

  function LastSequence(s: State, peer: string): int {
    if peer in s.lastSequence then s.lastSequence[peer] else 0
  }

  // The receiver counts the message: signed, not from the future, and not seen before.
  predicate Counts(c: Config, s: State, m: Message, now: Option<real>) {
    now.Some? && Authentic(c, m)
    && now.value - SentAt(c, m) >= -c.futureSkew
    && SequenceOf(m) > LastSequence(s, PeerOf(m))
  }

  // compare_digest refuses the signature: everything checked before it is in order, and the signature
  // has a character that is not ASCII.
  predicate Raises(c: Config, m: Message, now: Option<real>) {
    && now.Some? && WellFormed(c.host, m) && m["key_id"].s in c.trusted
    && c.trusted[m["key_id"].s].peer == PeerOf(m) && |c.trusted[m["key_id"].s].secret| >= 32
    && !IsAscii(m["signature"].s)
  }

  // Such a message exists for every usable trusted key.
  lemma SomeMessageRaises(c: Config, keyId: string, now: real) returns (m: Message)
    requires keyId != "" && keyId in c.trusted && c.trusted[keyId].peer != "" && |c.trusted[keyId].secret| >= 32
    ensures Raises(c, m, Some(now)) && m["key_id"] == Str(keyId)
  {
    var signature := seq(64, i => '\U{E9}');
    var unsigned := Unsigned(c.trusted[keyId].peer, keyId, 1, "1", [], "READY", "0.0");
    UnsignedIsShaped(c.trusted[keyId].peer, keyId, 1, "1", [], "READY", "0.0");
    m := unsigned["signature" := Str(signature)];
    SigningKeepsShape(c.host, unsigned, signature);
    assert signature[0] in signature;
  }

  // A counted message is alive when it is young enough.
  predicate Fresh(c: Config, m: Message, now: real)
    requires WellFormed(c.host, m)
  {
    now - SentAt(c, m) <= c.maxAge
  }

  // now is None when the receiver's clock gave no finite number.
  function AfterMessage(c: Config, s: State, m: Message, now: Option<real>): State {
    if !Counts(c, s, m, now) then s
    else
      var peer, n := PeerOf(m), SequenceOf(m);
      var alive := Fresh(c, m, now.value);
      State(s.lastSequence[peer := n],
            s.states[peer := PeerResult(Some(peer), if alive then Alive else Stale,
                                        if alive then Verified else TooOld, Some(n))],
            if alive then s.acceptedAt[peer := now.value] else s.acceptedAt)
  }

  // Changing any member of an authentic heartbeat but not its signature leaves nothing to count and
  // nothing to raise, whatever the registry has seen and whatever its clock says.
  lemma AlteredIsRefused(c: Config, s: State, a: Message, b: Message, now: Option<real>)
    requires HexMac(c.mac) && Authentic(c, a) && a != b
    requires "signature" in b && b["signature"] == a["signature"]
    requires WellFormed(c.host, b) ==> NoCollision(c, a, b)
    ensures !Counts(c, s, b, now) && !Raises(c, b, now) && AfterMessage(c, s, b, now) == s
  {
    if Authentic(c, b) {
      SignatureBinds(c, a, b);
    }
    var expected := c.mac(c.trusted[a["key_id"].s].secret, SignedText(a));
    assert IsHex(expected);
    HexIsPlain(expected);
  }

  predicate Expired(c: Config, s: State, peer: string, now: real) {
    peer in s.states && s.states[peer].status.Alive? && peer in s.acceptedAt && now - s.acceptedAt[peer] > c.maxAge
  }

  function AfterMarking(c: Config, s: State, now: real): State {
    s.(states := map peer | peer in s.states ::
         if Expired(c, s, peer, now) then PeerResult(Some(peer), Stale, NotSeenAgain, s.states[peer].sequence)
         else s.states[peer])
  }

  // Marking makes stale exactly the verified peers whose accepted heartbeat is older than the maximal
  // age, and touches nothing else.
  lemma MarkingMeaning(c: Config, s: State, now: real, peer: string)
    requires peer in s.states
    ensures var t := AfterMarking(c, s, now);
      && t.lastSequence == s.lastSequence && t.acceptedAt == s.acceptedAt && t.states.Keys == s.states.Keys
      && (s.states[peer].status.Alive? && peer in s.acceptedAt && now > s.acceptedAt[peer] + c.maxAge ==>
            t.states[peer].status.Stale? && t.states[peer].sequence == s.states[peer].sequence)
      && (!(s.states[peer].status.Alive? && peer in s.acceptedAt && now > s.acceptedAt[peer] + c.maxAge) ==>
            t.states[peer] == s.states[peer])
  {}

  class PeerRegistry {
    const config: Config
    var lastSequence: map<string, int>
    var states: map<string, PeerResult>
    var acceptedAt: map<string, real>

    function Contents(): State
      reads this
    {
      State(lastSequence, states, acceptedAt)
    }

    constructor (config: Config)
      ensures Contents() == EMPTY && this.config == config
    {
      this.config := config;
      lastSequence, states, acceptedAt := map[], map[], map[];
    }

    // null stands for the ValueError about the freshness limits.
    static method Create(config: Config) returns (registry: PeerRegistry?)
      ensures registry != null <==> ValidConfig(config)
      ensures registry != null ==> fresh(registry) && registry.config == config && registry.Contents() == EMPTY
    {
      if config.maxAge <= 0.0 || config.futureSkew < 0.0 {
        return null;
      }
      registry := new PeerRegistry(config);
    }

    // Not INVALID exactly when the message counts; an INVALID or raised outcome changes nothing.
    method Receive(m: Message, now: Option<real>) returns (r: Outcome)
      requires HexMac(config.mac)
      modifies this
      ensures Contents() == AfterMessage(config, old(Contents()), m, now)
      ensures r.Returned? && !r.result.status.Invalid? <==>
        && now.Some? && Authentic(config, m) && now.value - SentAt(config, m) >= -config.futureSkew
        && SequenceOf(m) > (if PeerOf(m) in old(lastSequence) then old(lastSequence)[PeerOf(m)] else 0)
      ensures Counts(config, old(Contents()), m, now) ==>
        && r.result == states[PeerOf(m)] && lastSequence == old(lastSequence)[PeerOf(m) := SequenceOf(m)]
        && (r.result.status.Alive? <==> now.value - SentAt(config, m) <= config.maxAge)
      ensures r.Raised? <==> Raises(config, m, now)
    {
      if !WellFormed(config.host, m) || now.None? {
        return Returned(PeerResult(None, Invalid, Malformed, None));
      }
      var peer, n := PeerOf(m), SequenceOf(m);
      if m["key_id"].s !in config.trusted {
        return Returned(PeerResult(Some(peer), Invalid, UnknownKey, Some(n)));
      }
      var key := config.trusted[m["key_id"].s];
      if peer != key.peer {
        return Returned(PeerResult(Some(peer), Invalid, WrongPeer, Some(n)));
      }
      if |key.secret| < 32 {
        return Returned(PeerResult(Some(peer), Invalid, BadKeyMaterial, Some(n)));
      }
      var expected := config.mac(key.secret, SignedText(m));
      assert IsHex(expected);
      HexIsPlain(expected);
      if !IsAscii(m["signature"].s) {
        return Raised;
      }
      if m["signature"].s != expected {
        return Returned(PeerResult(Some(peer), Invalid, BadSignature, Some(n)));
      }
      var age := now.value - SentAt(config, m);
      if age < -config.futureSkew {
        return Returned(PeerResult(Some(peer), Invalid, TooFarInFuture, Some(n)));
      }
      var previous := if peer in lastSequence then lastSequence[peer] else 0;
      if n <= previous {
        return Returned(PeerResult(Some(peer), Invalid, Replay, Some(n)));
      }
      lastSequence := lastSequence[peer := n];
      var result;
      if age > config.maxAge {
        result := PeerResult(Some(peer), Stale, TooOld, Some(n));
      } else {
        result := PeerResult(Some(peer), Alive, Verified, Some(n));
        acceptedAt := acceptedAt[peer := now.value];
      }
      states := states[peer := result];
      r := Returned(result);
    }

    // Recording the receiver time again leaves the state and result of Receive.
    method ReceiveAndTrack(m: Message, now: Option<real>) returns (r: Outcome)
      requires HexMac(config.mac)
      modifies this
      ensures Contents() == AfterMessage(config, old(Contents()), m, now)
      ensures r.Returned? && !r.result.status.Invalid? <==>
        && now.Some? && Authentic(config, m) && now.value - SentAt(config, m) >= -config.futureSkew
        && SequenceOf(m) > (if PeerOf(m) in old(lastSequence) then old(lastSequence)[PeerOf(m)] else 0)
      ensures Counts(config, old(Contents()), m, now) ==>
        && r.result == states[PeerOf(m)] && lastSequence == old(lastSequence)[PeerOf(m) := SequenceOf(m)]
        && (r.result.status.Alive? <==> now.value - SentAt(config, m) <= config.maxAge)
      ensures r.Raised? <==> Raises(config, m, now)
    {
      r := Receive(m, now);
      if r.Returned? && r.result.status.Alive? && r.result.peer.Some? {
        acceptedAt := acceptedAt[r.result.peer.value := now.value];
      }
    }

    method MarkUnseenStale(now: real) returns (snapshot: map<string, PeerResult>)
      modifies this
      ensures Contents() == AfterMarking(config, old(Contents()), now)
      ensures snapshot == states
    {
      var before := states;
      var todo := before.Keys;
      while todo != {}
        invariant todo <= before.Keys && states.Keys == before.Keys
        invariant lastSequence == old(lastSequence) && acceptedAt == old(acceptedAt)
        invariant forall p :: p in todo ==> states[p] == before[p]
        invariant forall p :: p in before.Keys - todo ==>
          states[p] == AfterMarking(config, old(Contents()), now).states[p]
        decreases |todo|
      {
        var peer :| peer in todo;
        todo := todo - {peer};
        var result := before[peer];
        if result.status.Alive? && peer in acceptedAt && now - acceptedAt[peer] > config.maxAge {
          states := states[peer := PeerResult(Some(peer), Stale, NotSeenAgain, result.sequence)];
        }
      }
      snapshot := states;
    }
  }

  // ---- Runs ----

  datatype Event = Receiving(m: Message, now: Option<real>) | Marking(at: real)

  // A counted message, with what it says and the time it was received.
  datatype Counted = Counted(m: Message, peer: string, sequence: int, sentAt: real, at: real)

  // The entry's signature is by a trusted key bound to its peer, over the values it lists, and it was
  // not sent too far after it was received.
  predicate Vouched(c: Config, k: Counted) {
    Authentic(c, k.m) && k.sentAt <= k.at + c.futureSkew && k.peer == PeerOf(k.m) && k.sequence == SequenceOf(k.m) && k.sentAt == SentAt(c, k.m)
  }

  function Describe(c: Config, m: Message, at: real): Counted
    requires WellFormed(c.host, m)
  {
    Counted(m, PeerOf(m), SequenceOf(m), SentAt(c, m), at)
  }

  // The registry's state together with the messages counted so far, oldest first.
  datatype World = World(s: State, counted: seq<Counted>)

  function Step(c: Config, w: World, e: Event): World {
    match e
    case Receiving(m, now) =>
      if Counts(c, w.s, m, now) then
        World(AfterMessage(c, w.s, m, now), w.counted + [Describe(c, m, now.value)])
      else w
    case Marking(now) => w.(s := AfterMarking(c, w.s, now))
  }

  // Any stream of messages, receiver times in any order, with marking in between.
  function Run(c: Config, events: seq<Event>): World {
    if events == [] then World(EMPTY, []) else Step(c, Run(c, events[..|events| - 1]), events[|events| - 1])
  }

  ghost predicate AllVouched(c: Config, w: World) {
    forall i :: 0 <= i < |w.counted| ==> Vouched(c, w.counted[i])
  }

  // Per peer, across all keys bound to it, later messages have higher sequences, and the registry
  // holds the last one.
  ghost predicate Bookkeeping(c: Config, w: World) {
    && (forall i, j :: 0 <= i < j < |w.counted| && w.counted[i].peer == w.counted[j].peer ==>
          w.counted[i].sequence < w.counted[j].sequence)
    && w.s.states.Keys == w.s.lastSequence.Keys
    && (forall i :: 0 <= i < |w.counted| ==>
          w.counted[i].peer in w.s.lastSequence && w.counted[i].sequence <= w.s.lastSequence[w.counted[i].peer])
    && (forall peer :: peer in w.s.states ==> Known(c, w, peer))
  }

  // What the registry stores for a peer comes from the peer's last counted message.
  ghost predicate Known(c: Config, w: World, peer: string) {
    && peer in w.s.states && peer in w.s.lastSequence
    && w.s.states[peer].sequence == Some(w.s.lastSequence[peer])
    && w.s.states[peer].peer == Some(peer) && !w.s.states[peer].status.Invalid?
    && exists i :: 0 <= i < |w.counted| && IsEvidence(c, w, peer, i)
  }

  ghost predicate IsEvidence(c: Config, w: World, peer: string, i: nat) {
    && i < |w.counted| && peer in w.s.states && peer in w.s.lastSequence
    && w.counted[i].peer == peer && w.counted[i].sequence == w.s.lastSequence[peer]
    && (w.s.states[peer].status.Alive? ==>
          && peer in w.s.acceptedAt && w.s.acceptedAt[peer] == w.counted[i].at
          && w.counted[i].at - w.counted[i].sentAt <= c.maxAge)
  }

  // The world after counting one message, in terms of what the message says.
  function Add(c: Config, w: World, k: Counted): World {
    var alive := k.at - k.sentAt <= c.maxAge;
    World(State(w.s.lastSequence[k.peer := k.sequence],
                w.s.states[k.peer := PeerResult(Some(k.peer), if alive then Alive else Stale,
                                                if alive then Verified else TooOld, Some(k.sequence))],
                if alive then w.s.acceptedAt[k.peer := k.at] else w.s.acceptedAt),
          w.counted + [k])
  }

  lemma AddingKeepsBookkeeping(c: Config, w: World, k: Counted)
    requires Bookkeeping(c, w) && k.sequence > LastSequence(w.s, k.peer)
    ensures Bookkeeping(c, Add(c, w, k))
  {
    var v := Add(c, w, k);
    assert v.counted[|w.counted|] == k;
    assert IsEvidence(c, v, k.peer, |w.counted|);
    forall p | p in v.s.states && p != k.peer ensures Known(c, v, p) {
      assert Known(c, w, p);
      var i :| 0 <= i < |w.counted| && IsEvidence(c, w, p, i);
      assert IsEvidence(c, v, p, i);
    }
    assert Known(c, v, k.peer);
  }

  lemma MarkingKeepsKnown(c: Config, w: World, now: real, peer: string)
    requires Known(c, w, peer)
    ensures Known(c, Step(c, w, Marking(now)), peer)
  {
    var v := Step(c, w, Marking(now));
    var i :| 0 <= i < |w.counted| && IsEvidence(c, w, peer, i);
    assert IsEvidence(c, v, peer, i);
  }

  lemma MarkingKeepsBookkeeping(c: Config, w: World, now: real)
    requires Bookkeeping(c, w)
    ensures Bookkeeping(c, Step(c, w, Marking(now)))
  {
    var v := Step(c, w, Marking(now));
    assert v.counted == w.counted && v.s.lastSequence == w.s.lastSequence && v.s.states.Keys == w.s.states.Keys;
    forall p | p in v.s.states ensures Known(c, v, p) {
      MarkingKeepsKnown(c, w, now, p);
    }
  }

  lemma CountingIsAdding(c: Config, w: World, m: Message, now: Option<real>)
    requires Counts(c, w.s, m, now)
    ensures Step(c, w, Receiving(m, now)) == Add(c, w, Describe(c, m, now.value))
    ensures Vouched(c, Describe(c, m, now.value))
  {}

  // In every run, receiver times even going backwards: per peer the counted sequences strictly
  // increase, the stored sequence is the last counted one, ALIVE has an accepted time, and every
  // counted message was signed with a key bound to its peer.
  lemma {:induction false} RunsKeepInvariant(c: Config, events: seq<Event>)
    ensures AllVouched(c, Run(c, events)) && Bookkeeping(c, Run(c, events))
  {
    if events != [] {
      var w, e := Run(c, events[..|events| - 1]), events[|events| - 1];
      RunsKeepInvariant(c, events[..|events| - 1]);
      if e.Marking? {
        MarkingKeepsBookkeeping(c, w, e.at);
      } else if Counts(c, w.s, e.m, e.now) {
        CountingIsAdding(c, w, e.m, e.now);
        AddingKeepsBookkeeping(c, w, Describe(c, e.m, e.now.value));
        VouchedSnoc(c, w, Add(c, w, Describe(c, e.m, e.now.value)));
      }
    }
  }

  lemma VouchedSnoc(c: Config, w: World, v: World)
    requires AllVouched(c, w) && |v.counted| == |w.counted| + 1
    requires v.counted[..|w.counted|] == w.counted && Vouched(c, v.counted[|w.counted|])
    ensures AllVouched(c, v)
  {
    forall i | 0 <= i < |v.counted| ensures Vouched(c, v.counted[i]) {
      if i < |w.counted| {
        assert v.counted[i] == w.counted[i];
      }
    }
  }

  // No message is counted twice in a run.
  lemma NoReplay(c: Config, events: seq<Event>, i: nat, j: nat)
    requires i < j < |Run(c, events).counted|
    ensures Run(c, events).counted[i].m != Run(c, events).counted[j].m
  {
    RunsKeepInvariant(c, events);
    var w := Run(c, events);
    assert Vouched(c, w.counted[i]) && Vouched(c, w.counted[j]);
  }

  // Freshness bound: after marking, each peer still ALIVE has signed, with a key bound to it, a
  // heartbeat at most two maximal ages old, and no later one of its heartbeats was counted.
  lemma FreshnessBound(c: Config, events: seq<Event>, now: real, peer: string)
    requires var s := Run(c, events + [Marking(now)]).s; peer in s.states && s.states[peer].status.Alive?
    ensures var w := Run(c, events + [Marking(now)]);
      exists i :: 0 <= i < |w.counted| && IsRecent(c, w, peer, now, i)
  {
    var all := events + [Marking(now)];
    var w, before := Run(c, all), Run(c, events);
    assert all[..|all| - 1] == events;
    assert w == Step(c, before, Marking(now));
    RunsKeepInvariant(c, all);
    RunsKeepInvariant(c, events);
    assert Known(c, w, peer) && Known(c, before, peer);
    var i :| 0 <= i < |w.counted| && IsEvidence(c, w, peer, i);
    assert !Expired(c, before.s, peer, now);
    assert Vouched(c, w.counted[i]);
    assert IsRecent(c, w, peer, now, i);
  }

  // Entry i is a signed message of the peer at most two maximal ages old, and its last.
  predicate IsRecent(c: Config, w: World, peer: string, now: real, i: nat) {
    && i < |w.counted| && Vouched(c, w.counted[i]) && w.counted[i].peer == peer
    && w.counted[i].sentAt >= now - 2.0 * c.maxAge
    && forall j :: 0 <= j < |w.counted| && w.counted[j].peer == peer ==>
         w.counted[j].sequence <= w.counted[i].sequence
  }
}
