// The content-addressed object store with HMAC receipts (controller/peer_store.py).
module PeerStore {
  import opened Wrappers
  import opened Text
  import opened JsonText
  import opened Digest
  import opened HostValues

  const RECEIPT_ALGORITHM := "HMAC-SHA256"
  const ENCRYPTION_STATUS := "NOT_IMPLEMENTED_STDLIB_GAP"

  // Object data; bytes and the text that encodes to them are not told apart.
  type Bytes = string

  datatype Receipt = Receipt(digest: string, owner: string, store: string, algorithm: string,
                             encryption: string, mac: string)

  function CanonicalReceipt(r: Receipt): string {
    r.digest + "|" + (r.owner + "|" + (r.store + "|" + (r.algorithm + "|" + r.encryption)))
  }

  // The text of a receipt the store issues.
  lemma CanonicalInFull(digest: string, owner: string, store: string, mac: string)
    ensures CanonicalReceipt(Receipt(digest, owner, store, RECEIPT_ALGORITHM, ENCRYPTION_STATUS, mac))
         == digest + "|" + owner + "|" + store + "|HMAC-SHA256|NOT_IMPLEMENTED_STDLIB_GAP"
  {
    var end := "|HMAC-SHA256|NOT_IMPLEMENTED_STDLIB_GAP";
    assert "|" + (RECEIPT_ALGORITHM + ("|" + ENCRYPTION_STATUS)) == end;
    Associative(digest, "|", owner + ("|" + (store + end)));
    Associative(digest + "|", owner, "|" + (store + end));
    Associative(digest + "|" + owner, "|", store + end);
    Associative(digest + "|" + owner + "|", store, end);
  }

  // A receipt as a caller presents it: a dict with members of any type.
  type Presented = map<string, Json>

  predicate HasFields(p: Presented) {
    "object_digest" in p && "owner_id" in p && "store_id" in p && "algorithm" in p && "encryption" in p
    && "receipt_mac" in p
  }

  // The five signed members are strings, as joining them needs.
  predicate IsJoinable(p: Presented)
    requires HasFields(p)
  {
    p["object_digest"].Str? && p["owner_id"].Str? && p["store_id"].Str? && p["algorithm"].Str? && p["encryption"].Str?
  }

  function ReceiptOf(host: Host, p: Presented): Receipt
    requires HasFields(p) && IsJoinable(p)
  {
    Receipt(p["object_digest"].s, p["owner_id"].s, p["store_id"].s, p["algorithm"].s, p["encryption"].s,
            PyStr(host, p["receipt_mac"]))
  }

  datatype StoreError =
    | BadOwner | DigestCollision
    | MissingField | WrongStore | BadAlgorithm | NotText | BadMac | NotAvailable | IntegrityViolation

  // ---- What a MAC determines ----

  // A receipt with an issued MAC that leads to stored content leads to the issued content, although
  // owner and store ids may contain the separator.
  lemma MacDeterminesContent(sha: Hash, mac: Hash, issued: Receipt, original: Bytes, presented: Receipt, data: Bytes)
    requires HexDigest(sha)
    requires CollisionFreeOn(mac, {CanonicalReceipt(issued), CanonicalReceipt(presented)})
    requires CollisionFreeOn(sha, {original, data})
    requires issued.digest == sha(original) && presented.digest == sha(data)
    requires mac(CanonicalReceipt(presented)) == mac(CanonicalReceipt(issued))
    ensures data == original && presented.digest == issued.digest
  {
    HexIsPlain(sha(original));
    HexIsPlain(sha(data));
    SplitReceipt(issued, presented);
  }

  // The part of the canonical receipt after the digest.
  function AfterDigest(r: Receipt): string {
    r.owner + ("|" + (r.store + "|" + (r.algorithm + "|" + r.encryption)))
  }

  lemma SplitReceipt(a: Receipt, b: Receipt)
    requires CanonicalReceipt(a) == CanonicalReceipt(b) && '|' !in a.digest && '|' !in b.digest
    ensures a.digest == b.digest && AfterDigest(a) == AfterDigest(b)
  {
    Associative(a.owner, "|", a.store + "|" + (a.algorithm + "|" + a.encryption));
    Associative(b.owner, "|", b.store + "|" + (b.algorithm + "|" + b.encryption));
    SplitAtSeparator(a.digest, b.digest, AfterDigest(a), AfterDigest(b), '|');
  }

  // The MAC does not fix the owner by itself: an accepted receipt with an issued MAC is the issued
  // receipt exactly when its encryption member, which retrieve does not look at, is the constant.
  lemma MacDeterminesReceipt(mac: Hash, issued: Receipt, presented: Receipt)
    requires '|' !in issued.digest && '|' !in presented.digest
    requires CollisionFreeOn(mac, {CanonicalReceipt(issued), CanonicalReceipt(presented)})
    requires issued.mac == mac(CanonicalReceipt(issued)) && presented.mac == mac(CanonicalReceipt(presented))
    requires issued.mac == presented.mac
    requires presented.store == issued.store && presented.algorithm == issued.algorithm
    requires issued.encryption == ENCRYPTION_STATUS
    ensures presented == issued <==> presented.encryption == ENCRYPTION_STATUS
  {
    SplitReceipt(issued, presented);
    if presented.encryption == ENCRYPTION_STATUS {
      CancelSuffix(issued.owner, presented.owner,
                   "|" + (issued.store + "|" + (issued.algorithm + "|" + issued.encryption)));
    }
  }

  lemma MoreKeysMoreObjects(a: map<string, Bytes>, b: map<string, Bytes>)
    requires a.Keys <= b.Keys
    ensures |a| <= |b|
  {
    SubsetSize(a.Keys, b.Keys);
    assert |a| == |a.Keys| && |b| == |b.Keys|;
  }

  lemma {:induction false} SubsetSize(a: set<string>, b: set<string>)
    requires a <= b
    ensures |a| <= |b|
  {
    if a != {} {
      var x :| x in a;
      SubsetSize(a - {x}, b - {x});
    }
  }

  // ---- The store as a machine ----

  // mac is HMAC-SHA256 (RFC 2104) under the shared secret.
  datatype Config = Config(host: Host, mac: Hash, storeId: string)

  // The stored objects, and the history of receipts with the data they were issued for.
  datatype State = State(objects: map<string, Bytes>, issued: set<(Receipt, Bytes)>)

  // The receipt store issues for a digest and an owner.
  function Issue(c: Config, digest: string, owner: string): Receipt {
    var unsigned := Receipt(digest, owner, c.storeId, RECEIPT_ALGORITHM, ENCRYPTION_STATUS, "");
    unsigned.(mac := c.mac(CanonicalReceipt(unsigned)))
  }

  function Present(r: Receipt): Presented {
    map["object_digest" := Str(r.digest), "owner_id" := Str(r.owner), "store_id" := Str(r.store),
        "algorithm" := Str(r.algorithm), "encryption" := Str(r.encryption), "receipt_mac" := Str(r.mac)]
  }

  // Storing may be refused; stored bytes may also change behind the store's back.
  datatype Op = Storing(data: Bytes, owner: string) | Corrupting(digest: string, data: Bytes)

  predicate Storable(c: Config, s: State, data: Bytes, owner: string) {
    !Blank(owner) && (c.host.sha(data) in s.objects ==> s.objects[c.host.sha(data)] == data)
  }

  ghost function Step(c: Config, s: State, op: Op): State {
    match op
    case Storing(data, owner) =>
      if !Storable(c, s, data, owner) then s
      else State(s.objects[c.host.sha(data) := data], s.issued + {(Issue(c, c.host.sha(data), owner), data)})
    case Corrupting(digest, data) =>
      if digest in s.objects then s.(objects := s.objects[digest := data]) else s
  }

  ghost function Run(c: Config, ops: seq<Op>): State {
    if ops == [] then State(map[], {}) else Step(c, Run(c, ops[..|ops| - 1]), ops[|ops| - 1])
  }

  // retrieve accepts the presented receipt.
  predicate Retrievable(c: Config, objects: map<string, Bytes>, p: Presented) {
    HasFields(p) && IsJoinable(p)
    && var r := ReceiptOf(c.host, p);
       && r.store == c.storeId && r.algorithm == RECEIPT_ALGORITHM && r.mac == c.mac(CanonicalReceipt(r))
       && r.digest in objects && c.host.sha(objects[r.digest]) == r.digest
  }

  // A receipt of another store or algorithm, or with a member missing, is refused whatever its MAC.
  lemma ForeignIsRefused(c: Config, objects: map<string, Bytes>, p: Presented)
    requires "store_id" !in p || p["store_id"] != Str(c.storeId) || "algorithm" !in p || p["algorithm"] != Str("HMAC-SHA256")
          || "object_digest" !in p || "owner_id" !in p || "encryption" !in p || "receipt_mac" !in p
    ensures !Retrievable(c, objects, p)
  {}

  // The bytes it returns.
  function Retrieved(c: Config, objects: map<string, Bytes>, p: Presented): Bytes
    requires Retrievable(c, objects, p)
  {
    objects[ReceiptOf(c.host, p).digest]
  }

  ghost predicate IssuedHere(c: Config, r: Receipt, data: Bytes) {
    r == Issue(c, c.host.sha(data), r.owner)
  }

  // Objects are kept under digests, and every receipt issued so far names a kept object.
  ghost predicate Consistent(c: Config, s: State) {
    && (forall d :: d in s.objects ==> IsHex(d))
    && (forall e :: e in s.issued ==> IssuedHere(c, e.0, e.1) && e.0.digest in s.objects)
  }

  lemma StepKeeps(c: Config, s: State, op: Op)
    requires HexDigest(c.host.sha) && Consistent(c, s)
    ensures Consistent(c, Step(c, s, op))
    ensures s.objects.Keys <= Step(c, s, op).objects.Keys && s.issued <= Step(c, s, op).issued
    ensures |s.objects| <= |Step(c, s, op).objects|
  {
    MoreKeysMoreObjects(s.objects, Step(c, s, op).objects);
  }

  lemma {:induction false} RunsAreConsistent(c: Config, ops: seq<Op>)
    requires HexDigest(c.host.sha)
    ensures Consistent(c, Run(c, ops))
  {
    if ops != [] {
      RunsAreConsistent(c, ops[..|ops| - 1]);
      StepKeeps(c, Run(c, ops[..|ops| - 1]), ops[|ops| - 1]);
    }
  }

  // Over any run of stores and corruptions no object disappears, the object count never falls, and
  // no issued receipt is forgotten.
  lemma {:induction false} RunsOnlyGrow(c: Config, ops: seq<Op>, more: seq<Op>)
    requires HexDigest(c.host.sha)
    ensures Run(c, ops).objects.Keys <= Run(c, ops + more).objects.Keys
    ensures |Run(c, ops).objects| <= |Run(c, ops + more).objects|
    ensures Run(c, ops).issued <= Run(c, ops + more).issued
  {
    if more == [] {
      assert ops + more == ops;
    } else {
      var before := more[..|more| - 1];
      assert (ops + more)[..|ops + more| - 1] == ops + before;
      RunsOnlyGrow(c, ops, before);
      RunsAreConsistent(c, ops + before);
      StepKeeps(c, Run(c, ops + before), more[|more| - 1]);
    }
  }

  // In every run, whatever was corrupted: retrieve returns only bytes of the receipt's digest, and for
  // a receipt whose MAC was issued the very bytes it was issued for.
  lemma RunsReturnTheIssued(c: Config, ops: seq<Op>, p: Presented, issued: Receipt, original: Bytes)
    requires HexDigest(c.host.sha) && Retrievable(c, Run(c, ops).objects, p)
    requires (issued, original) in Run(c, ops).issued && issued.mac == ReceiptOf(c.host, p).mac
    requires CollisionFreeOn(c.mac, {CanonicalReceipt(issued), CanonicalReceipt(ReceiptOf(c.host, p))})
    requires CollisionFreeOn(c.host.sha, {original, Retrieved(c, Run(c, ops).objects, p)})
    ensures Retrieved(c, Run(c, ops).objects, p) == original
  {
    RunsAreConsistent(c, ops);
    assert IssuedHere(c, issued, original);
    IssueSigns(c, issued.digest, issued.owner);
    MacDeterminesContent(c.host.sha, c.mac, issued, original, ReceiptOf(c.host, p), Retrieved(c, Run(c, ops).objects, p));
  }

  lemma IssueSigns(c: Config, digest: string, owner: string)
    ensures var r := Issue(c, digest, owner); r.mac == c.mac(CanonicalReceipt(r))
  {
    var r := Issue(c, digest, owner);
    assert CanonicalReceipt(r) == CanonicalReceipt(r.(mac := ""));
  }

  // An issued receipt is honoured exactly as long as the stored bytes still have their digest.
  lemma IssuedIsRetrievable(c: Config, objects: map<string, Bytes>, digest: string, owner: string)
    ensures Retrievable(c, objects, Present(Issue(c, digest, owner)))
       <==> digest in objects && c.host.sha(objects[digest]) == digest
  {
    var r := Issue(c, digest, owner);
    IssueSigns(c, digest, owner);
    assert ReceiptOf(c.host, Present(r)) == r;
  }

  // "x|S|A|y" followed by T, regrouped.
  lemma Regroup(x: string, s: string, a: string, y: string, t: string)
    ensures (x + ("|" + (s + ("|" + (a + ("|" + y)))))) + t == x + ("|" + (s + ("|" + (a + ("|" + (y + t))))))
  {
    Associative(x, "|" + (s + ("|" + (a + ("|" + y)))), t);
    Associative("|", s + ("|" + (a + ("|" + y))), t);
    Associative(s, "|" + (a + ("|" + y)), t);
    Associative("|", a + ("|" + y), t);
    Associative(a, "|" + y, t);
    Associative("|", y, t);
  }

  // Two receipts of this store with the same digest, MAC and canonical text are accepted alike.
  lemma AcceptedAlike(c: Config, objects: map<string, Bytes>, a: Receipt, b: Receipt)
    requires CanonicalReceipt(a) == CanonicalReceipt(b) && a.mac == b.mac && a.digest == b.digest
    requires a.store == b.store && a.algorithm == b.algorithm
    ensures Retrievable(c, objects, Present(a)) <==> Retrievable(c, objects, Present(b))
  {
    assert ReceiptOf(c.host, Present(a)) == a && ReceiptOf(c.host, Present(b)) == b;
  }

  // An owner id with bars in it, and the receipt that names another owner by moving the rest of it
  // into the encryption member.
  function LongOwner(c: Config, x: string, y: string): string {
    x + ("|" + (c.storeId + ("|" + (RECEIPT_ALGORITHM + ("|" + y)))))
  }

  function Moved(c: Config, digest: string, x: string, y: string): Receipt {
    Issue(c, digest, LongOwner(c, x, y)).(owner := x,
      encryption := y + ("|" + (c.storeId + ("|" + (RECEIPT_ALGORITHM + ("|" + ENCRYPTION_STATUS))))))
  }

  lemma MovedTextIsTheSame(c: Config, digest: string, x: string, y: string)
    ensures AfterDigest(Moved(c, digest, x, y)) == AfterDigest(Issue(c, digest, LongOwner(c, x, y)))
  {
    Regroup(x, c.storeId, RECEIPT_ALGORITHM, y, "|" + (c.storeId + ("|" + (RECEIPT_ALGORITHM + ("|" + ENCRYPTION_STATUS)))));
  }

  lemma CanonicalFromRest(a: Receipt, b: Receipt)
    requires a.digest == b.digest && AfterDigest(a) == AfterDigest(b)
    ensures CanonicalReceipt(a) == CanonicalReceipt(b)
  {
    assert CanonicalReceipt(a) == a.digest + ("|" + AfterDigest(a));
    assert CanonicalReceipt(b) == b.digest + ("|" + AfterDigest(b));
  }

  // So the MAC does not protect the owner: the moved receipt names another owner, has the same
  // canonical text, and retrieve accepts it wherever it accepts the issued one.
  lemma OwnerCanMove(c: Config, objects: map<string, Bytes>, digest: string, x: string, y: string)
    ensures var issued, moved := Issue(c, digest, LongOwner(c, x, y)), Moved(c, digest, x, y);
      && CanonicalReceipt(moved) == CanonicalReceipt(issued) && moved.mac == issued.mac && moved.owner != issued.owner
      && (Retrievable(c, objects, Present(moved)) <==> Retrievable(c, objects, Present(issued)))
  {
    var issued, moved := Issue(c, digest, LongOwner(c, x, y)), Moved(c, digest, x, y);
    MovedTextIsTheSame(c, digest, x, y);
    CanonicalFromRest(moved, issued);
    assert |x| < |LongOwner(c, x, y)|;
    AcceptedAlike(c, objects, moved, issued);
  }

  // ---- The store ----

  class PeerObjectStore {
    const config: Config
    var objects: map<string, Bytes>
    ghost var issued: set<(Receipt, Bytes)>

    ghost function Contents(): State
      reads this
    {
      State(objects, issued)
    }

    ghost predicate Valid()
      reads this
    {
      HexDigest(config.host.sha) && HexDigest(config.mac) && Consistent(config, Contents())
    }

    constructor (config: Config)
      requires HexDigest(config.host.sha) && HexDigest(config.mac)
      ensures Valid() && Contents() == Run(config, []) && this.config == config
    {
      this.config := config;
      objects, issued := map[], {};
    }

    // No store exists without the opt-in, a name and a long enough secret.
    static method Create(config: Config, secretLength: nat, optIn: bool) returns (store: PeerObjectStore?)
      requires HexDigest(config.host.sha) && HexDigest(config.mac)
      ensures store != null <==> optIn && !Blank(config.storeId) && secretLength >= 32
      ensures store != null ==>
        fresh(store) && store.Valid() && store.config == config && store.Contents() == Run(config, [])
    {
      if !optIn || Blank(config.storeId) || secretLength < 32 {
        return null;
      }
      store := new PeerObjectStore(config);
    }

    // Data is never replaced by other data under the same digest.
    method Store(data: Bytes, owner: string) returns (r: Result<Receipt, StoreError>)
      requires Valid()
      modifies this
      ensures Valid()
      ensures Contents() == Step(config, old(Contents()), Storing(data, owner))
      ensures r.Success? <==> Storable(config, old(Contents()), data, owner)
      ensures r.Success? ==>
        && IssuedHere(config, r.value, data) && issued == old(issued) + {(r.value, data)}
        && r.value == Receipt(config.host.sha(data), owner, config.storeId, "HMAC-SHA256", "NOT_IMPLEMENTED_STDLIB_GAP",
             config.mac(CanonicalReceipt(r.value)))
        && CanonicalReceipt(r.value) == config.host.sha(data) + "|" + owner + "|" + config.storeId
             + "|HMAC-SHA256|NOT_IMPLEMENTED_STDLIB_GAP"
      ensures old(objects).Keys <= objects.Keys && |old(objects)| <= |objects|
    {
      StepKeeps(config, Contents(), Storing(data, owner));
      if Blank(owner) {
        return Failure(BadOwner);
      }
      var digest := config.host.sha(data);
      if digest in objects && objects[digest] != data {
        return Failure(DigestCollision);
      }
      objects := objects[digest := data];
      var unsigned := Receipt(digest, owner, config.storeId, RECEIPT_ALGORITHM, ENCRYPTION_STATUS, "");
      var receipt := unsigned.(mac := config.mac(CanonicalReceipt(unsigned)));
      issued := issued + {(receipt, data)};
      assert CanonicalReceipt(receipt) == CanonicalReceipt(unsigned);
      CanonicalInFull(digest, owner, config.storeId, receipt.mac);
      r := Success(receipt);
    }

    // Stored bytes may change behind the store's back.
    method Corrupt(digest: string, data: Bytes)
      requires Valid() && digest in objects
      modifies this
      ensures Valid() && Contents() == Step(config, old(Contents()), Corrupting(digest, data))
    {
      StepKeeps(config, Contents(), Corrupting(digest, data));
      objects := objects[digest := data];
    }

    // Whether retrieve would honour a receipt this store issues for the digest, whoever owns it.
    method IsAvailable(digest: string) returns (available: bool)
      requires Valid()
      ensures forall owner :: available <==> Retrievable(config, objects, Present(Issue(config, digest, owner)))
      ensures forall e :: e in issued && e.0.digest == digest ==>
        (available <==> Retrievable(config, objects, Present(e.0)))
    {
      forall owner ensures Retrievable(config, objects, Present(Issue(config, digest, owner)))
                      <==> digest in objects && config.host.sha(objects[digest]) == digest
      {
        IssuedIsRetrievable(config, objects, digest, owner);
      }
      forall e | e in issued && e.0.digest == digest ensures e.0 == Issue(config, digest, e.0.owner) {
        assert IssuedHere(config, e.0, e.1);
      }
      if digest !in objects {
        return false;
      }
      available := config.host.sha(objects[digest]) == digest;
    }

    // Never bytes of another digest, whatever happened to the stored ones; and for a receipt whose
    // MAC was issued here, the very bytes that receipt was issued for.
    method Retrieve(p: Presented) returns (r: Result<Bytes, StoreError>)
      requires Valid()
      ensures r.Success? <==> Retrievable(config, objects, p)
      ensures r.Success? ==>
        r.value == Retrieved(config, objects, p) && config.host.sha(r.value) == ReceiptOf(config.host, p).digest
      ensures r.Success? ==> forall e ::
        && e in issued && e.0.mac == ReceiptOf(config.host, p).mac
        && CollisionFreeOn(config.mac, {CanonicalReceipt(e.0), CanonicalReceipt(ReceiptOf(config.host, p))})
        && CollisionFreeOn(config.host.sha, {e.1, r.value})
        ==> r.value == e.1
    {
      if !HasFields(p) {
        return Failure(MissingField);
      }
      if p["store_id"] != Str(config.storeId) {
        return Failure(WrongStore);
      }
      if p["algorithm"] != Str(RECEIPT_ALGORITHM) {
        return Failure(BadAlgorithm);
      }
      if !IsJoinable(p) {
        return Failure(NotText);
      }
      var receipt := ReceiptOf(config.host, p);
      var expected := config.mac(CanonicalReceipt(receipt));
      HexIsPlain(expected);
      if !IsAscii(receipt.mac) {
        return Failure(NotText);
      }
      if expected != receipt.mac {
        return Failure(BadMac);
      }
      if receipt.digest !in objects {
        return Failure(NotAvailable);
      }
      var data := objects[receipt.digest];
      if config.host.sha(data) != receipt.digest {
        return Failure(IntegrityViolation);
      }
      forall e | e in issued && e.0.mac == receipt.mac
          && CollisionFreeOn(config.mac, {CanonicalReceipt(e.0), CanonicalReceipt(receipt)})
          && CollisionFreeOn(config.host.sha, {e.1, data})
        ensures data == e.1
      {
        assert IssuedHere(config, e.0, e.1);
        IssueSigns(config, e.0.digest, e.0.owner);
        MacDeterminesContent(config.host.sha, config.mac, e.0, e.1, receipt, data);
      }
      r := Success(data);
    }
  }
}
