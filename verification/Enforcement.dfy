// The advisory stewardship gate (controller/enforcement.py): hysteresis over a weighted score, each
// decision recorded in the hash-chain ledger.
module Enforcement {
  import opened Wrappers
  import opened JsonText
  import opened HostValues
  import opened Digest
  import opened Ledger
  import opened LedgerHistory
  import opened LedgerWriter

  const WEIGHT_RESOURCE := 0.35
  const WEIGHT_ENTROPY := 0.35
  const WEIGHT_ENVIRONMENT := 0.30
  const HUMAN_IMPACT_VETO := 0.5
  const TRIGGER_HIGH := 0.70
  const TRIGGER_LOW := 0.50

  // The documented HOLD is never returned.
  datatype Decision = Approved | Idle | Rejected

  function DecisionText(d: Decision): string {
    match d
    case Approved => "APPROVED_ADVISORY"
    case Idle => "IDLE"
    case Rejected => "REJECTED_HUMAN_IMPACT"
  }

  // The numbers a decision depends on.
  datatype Inputs = Inputs(resource: real, entropy: real, environment: real, human: real)

  function Score(x: Inputs): real {
    WEIGHT_RESOURCE * x.resource + WEIGHT_ENTROPY * x.entropy + WEIGHT_ENVIRONMENT * x.environment
  }

  type Proposal = map<string, Json>

  const INPUT_KEYS := ["resource_util", "entropy", "environment", "human_impact"]

  predicate InUnitRange(host: Host, p: Proposal, key: string) {
    key in p && IsNumber(p[key]) && 0.0 <= NumberOf(host, p[key]) <= 1.0
  }

  predicate ValidProposal(host: Host, p: Proposal) {
    forall key :: key in INPUT_KEYS ==> InUnitRange(host, p, key)
  }

  lemma ValidKeys(host: Host, p: Proposal)
    ensures ValidProposal(host, p) <==>
      && InUnitRange(host, p, "resource_util") && InUnitRange(host, p, "entropy")
      && InUnitRange(host, p, "environment") && InUnitRange(host, p, "human_impact")
  {
    assert INPUT_KEYS[0] in INPUT_KEYS && INPUT_KEYS[1] in INPUT_KEYS;
    assert INPUT_KEYS[2] in INPUT_KEYS && INPUT_KEYS[3] in INPUT_KEYS;
  }

  // The four inputs, each an int or a float in [0, 1].
  lemma ProposalMeaning(host: Host, p: Proposal)
    ensures ValidProposal(host, p) <==>
      forall key :: key in {"resource_util", "entropy", "environment", "human_impact"} ==>
        key in p && IsNumber(p[key]) && 0.0 <= NumberOf(host, p[key]) && NumberOf(host, p[key]) <= 1.0
  {
    ValidKeys(host, p);
  }

  function InputsOf(host: Host, p: Proposal): Inputs
    requires ValidProposal(host, p)
  {
    ValidKeys(host, p);
    Inputs(NumberOf(host, p["resource_util"]), NumberOf(host, p["entropy"]),
           NumberOf(host, p["environment"]), NumberOf(host, p["human_impact"]))
  }

  function Decide(active: bool, x: Inputs): Decision {
    if x.human >= HUMAN_IMPACT_VETO then Rejected
    else if Score(x) > TRIGGER_HIGH || (active && Score(x) >= TRIGGER_LOW) then Approved
    else Idle
  }

  // The ledger payload, members in key order; scoreText rounds and prints the score.
  function EntryPayload(host: Host, scoreText: real -> FloatText, target: string, p: Proposal, d: Decision): Json
    requires ValidProposal(host, p)
  {
    ValidKeys(host, p);
    Obj(Member("decision", Str(DecisionText(d)), Member("executed", Bool(false), Member("input",
      Obj(Member("entropy", p["entropy"], Member("environment", p["environment"],
          Member("human_impact", p["human_impact"], Member("resource_util", p["resource_util"], NoMembers))))),
      Member("score", Float(scoreText(Score(InputsOf(host, p)))), Member("target", Str(target), NoMembers))))))
  }

  class StewardshipGate {
    const ledger: HashChainLedger
    const scoreText: real -> FloatText
    var active: bool

    function Contents(): GateState
      reads this, ledger, ledger.file
    {
      GateState(active, ledger.Contents())
    }

    constructor (ledger: HashChainLedger, scoreText: real -> FloatText)
      ensures this.ledger == ledger && this.scoreText == scoreText && !active
    {
      this.ledger, this.scoreText, active := ledger, scoreText, false;
    }

    // None stands for the ValueError about the proposal; outcome is how the ledger append ends, and
    // the decision is remembered even when the append fails.
    method Evaluate(target: string, p: Proposal, timestamp: string, outcome: Outcome) returns (r: Option<Decision>)
      modifies this, ledger, ledger.file
      ensures Contents() == GateStep(ledger.host, scoreText, old(Contents()), Evaluation(target, p, timestamp, outcome))
      ensures r.Some? <==> ValidProposal(ledger.host, p)
      ensures r.None? ==> active == old(active) && ledger.Contents() == old(ledger.Contents())
      ensures r.Some? ==>
        && r.value == Decide(old(active), InputsOf(ledger.host, p)) && active == r.value.Approved?
        && ledger.Contents() == LedgerWriter.Step(ledger.host, old(ledger.Contents()),
             Append(EntryPayload(ledger.host, scoreText, target, p, r.value), timestamp, outcome))
    {
      if !ValidProposal(ledger.host, p) {
        return None;
      }
      ValidKeys(ledger.host, p);
      var score := WEIGHT_RESOURCE * NumberOf(ledger.host, p["resource_util"])
                   + WEIGHT_ENTROPY * NumberOf(ledger.host, p["entropy"])
                   + WEIGHT_ENVIRONMENT * NumberOf(ledger.host, p["environment"]);
      var decision;
      if NumberOf(ledger.host, p["human_impact"]) >= HUMAN_IMPACT_VETO {
        decision := Rejected;
        active := false;
      } else if score > TRIGGER_HIGH || (active && score >= TRIGGER_LOW) {
        decision := Approved;
        active := true;
      } else {
        decision := Idle;
        active := false;
      }
      var record := ledger.Append(EntryPayload(ledger.host, scoreText, target, p, decision), timestamp, outcome);
      r := Some(decision);
    }
  }

  // ---- Hysteresis over a run ----

  // The decision of the last of a non-empty run of evaluations by a new gate.
  function LastDecision(xs: seq<Inputs>): Decision
    requires xs != []
  {
    var front := xs[..|xs| - 1];
    Decide(front != [] && LastDecision(front).Approved?, xs[|xs| - 1])
  }

  predicate Triggers(x: Inputs) {
    0.35 * x.resource + 0.35 * x.entropy + 0.3 * x.environment > 0.7
  }

  predicate Sustains(x: Inputs) {
    x.human < 0.5 && 0.35 * x.resource + 0.35 * x.entropy + 0.3 * x.environment >= 0.5
  }

  // A veto, and nothing else, is a rejection, whatever the score.
  lemma VetoMeaning(active: bool, x: Inputs)
    ensures Decide(active, x).Rejected? <==> x.human >= 0.5
    ensures DecisionText(Approved) == "APPROVED_ADVISORY" && DecisionText(Idle) == "IDLE"
    ensures DecisionText(Rejected) == "REJECTED_HUMAN_IMPACT"
  {}

  lemma EntryInOrder(host: Host, scoreText: real -> FloatText, target: string, p: Proposal, d: Decision)
    requires ValidProposal(host, p)
    ensures var j := EntryPayload(host, scoreText, target, p, d);
      KeysAscend(j.members) && Field(j.members, "input").Obj? && KeysAscend(Field(j.members, "input").members)
  {
    ValidKeys(host, p);
    EntryHolds(host, scoreText, target, p, d);
    var i4 := Member("resource_util", p["resource_util"], NoMembers);
    var i3 := Member("human_impact", p["human_impact"], i4);
    var i2 := Member("environment", p["environment"], i3);
    Ascends("human_impact", p["human_impact"], i4, 0);
    Ascends("environment", p["environment"], i3, 0);
    Ascends("entropy", p["entropy"], i2, 2);
    var m := EntryPayload(host, scoreText, target, p, d).members;
    Ascends("score", m.rest.rest.rest.value, m.rest.rest.rest.rest, 0);
    Ascends("input", m.rest.rest.value, m.rest.rest.rest, 0);
    Ascends("executed", m.rest.value, m.rest.rest, 0);
    Ascends("decision", m.value, m.rest, 0);
    InputIsThird(m);
  }

  lemma InputIsThird(m: Members)
    requires m.Member? && m.rest.Member? && m.rest.rest.Member?
    requires m.key != "input" && m.rest.key != "input" && m.rest.rest.key == "input"
    ensures Field(m, "input") == m.rest.rest.value
  {
    SkipMember(m.key, m.value, m.rest, "input");
    SkipMember(m.rest.key, m.rest.value, m.rest.rest, "input");
  }

  // What a gate entry says, member by member.
  lemma EntryHolds(host: Host, scoreText: real -> FloatText, target: string, p: Proposal, d: Decision)
    requires ValidProposal(host, p)
    ensures "resource_util" in p && "entropy" in p && "environment" in p && "human_impact" in p
    ensures IsNumber(p["resource_util"]) && IsNumber(p["entropy"]) && IsNumber(p["environment"])
    ensures var j := EntryPayload(host, scoreText, target, p, d);
      && j.Obj? && Field(j.members, "target") == Str(target) && Field(j.members, "decision") == Str(DecisionText(d))
      && Field(j.members, "executed") == Bool(false) && Field(j.members, "score") == Float(scoreText(
           0.35 * NumberOf(host, p["resource_util"]) + 0.35 * NumberOf(host, p["entropy"]) + 0.3 * NumberOf(host, p["environment"])))
      && Field(j.members, "input").Obj?
      && var input := Field(j.members, "input").members;
         && Field(input, "resource_util") == p["resource_util"] && Field(input, "entropy") == p["entropy"]
         && Field(input, "environment") == p["environment"] && Field(input, "human_impact") == p["human_impact"]
  {
    ValidKeys(host, p);
    var i4 := Member("resource_util", p["resource_util"], NoMembers);
    var i3 := Member("human_impact", p["human_impact"], i4);
    var i2 := Member("environment", p["environment"], i3);
    SkipMember("human_impact", p["human_impact"], i4, "resource_util");
    SkipMember("environment", p["environment"], i3, "resource_util");
    SkipMember("environment", p["environment"], i3, "human_impact");
    SkipMember("entropy", p["entropy"], i2, "resource_util");
    SkipMember("entropy", p["entropy"], i2, "human_impact");
    SkipMember("entropy", p["entropy"], i2, "environment");
    var m := EntryPayload(host, scoreText, target, p, d).members;
    SkipMember("score", m.rest.rest.rest.value, m.rest.rest.rest.rest, "target");
    SkipMember("input", m.rest.rest.value, m.rest.rest.rest, "target");
    SkipMember("input", m.rest.rest.value, m.rest.rest.rest, "score");
    SkipMember("executed", m.rest.value, m.rest.rest, "target");
    SkipMember("executed", m.rest.value, m.rest.rest, "score");
    SkipMember("executed", m.rest.value, m.rest.rest, "input");
    SkipMember("decision", m.value, m.rest, "target");
    SkipMember("decision", m.value, m.rest, "score");
    SkipMember("decision", m.value, m.rest, "input");
    SkipMember("decision", m.value, m.rest, "executed");
  }

  // Some evaluation from here back triggered, and everything since sustained it.
  predicate HeldSince(xs: seq<Inputs>, m: nat) {
    m < |xs| && Triggers(xs[m]) && forall k :: m <= k < |xs| ==> Sustains(xs[k])
  }

  // The last evaluation is approved exactly when some evaluation scored above 0.70 and from it on
  // none was vetoed or scored below 0.50.
  lemma {:induction false} HysteresisExact(xs: seq<Inputs>)
    requires xs != []
    ensures LastDecision(xs).Approved? <==> exists m :: 0 <= m < |xs| && HeldSince(xs, m)
  {
    var n := |xs| - 1;
    var front, x := xs[..n], xs[n];
    if front != [] {
      HysteresisExact(front);
    }
    if Triggers(x) && Sustains(x) {
      assert HeldSince(xs, n);
    }
    if Sustains(x) && exists m :: 0 <= m < |front| && HeldSince(front, m) {
      var m :| 0 <= m < |front| && HeldSince(front, m);
      assert HeldSince(xs, m) by {
        forall k | m <= k < |xs| ensures Sustains(xs[k]) {
          if k < n { assert xs[k] == front[k]; }
        }
      }
    }
    if exists m :: 0 <= m < |xs| && HeldSince(xs, m) {
      var m :| 0 <= m < |xs| && HeldSince(xs, m);
      assert Sustains(xs[n]);
      if m < n {
        assert HeldSince(front, m) by {
          assert forall k :: 0 <= k < n ==> front[k] == xs[k];
        }
      }
    }
  }

  // ---- A gate's run on a ledger ----

  datatype Evaluation = Evaluation(target: string, p: Proposal, timestamp: string, outcome: Outcome)

  datatype GateState = GateState(active: bool, ledger: LedgerWriter.State)

  function GateStep(host: Host, scoreText: real -> FloatText, g: GateState, e: Evaluation): GateState {
    if !ValidProposal(host, e.p) then g
    else
      var d := Decide(g.active, InputsOf(host, e.p));
      GateState(d.Approved?, LedgerWriter.Step(host, g.ledger,
        Append(EntryPayload(host, scoreText, e.target, e.p, d), e.timestamp, e.outcome)))
  }

  function GateRun(host: Host, scoreText: real -> FloatText, es: seq<Evaluation>): GateState {
    if es == [] then GateState(false, Fresh(host))
    else GateStep(host, scoreText, GateRun(host, scoreText, es[..|es| - 1]), es[|es| - 1])
  }

  // The numbers a run's valid evaluations were decided on.
  function ValidInputs(host: Host, es: seq<Evaluation>): seq<Inputs> {
    if es == [] then []
    else
      var e := es[|es| - 1];
      ValidInputs(host, es[..|es| - 1]) + if ValidProposal(host, e.p) then [InputsOf(host, e.p)] else []
  }

  // A gate's own run decides as HysteresisExact says, whatever the ledger did: it is active exactly
  // when some valid evaluation triggered and every valid one since then sustained it.
  lemma {:induction false} GateIsHysteresis(host: Host, scoreText: real -> FloatText, es: seq<Evaluation>)
    ensures var xs := ValidInputs(host, es);
      && (GateRun(host, scoreText, es).active <==> xs != [] && LastDecision(xs).Approved?)
      && (GateRun(host, scoreText, es).active <==> exists m :: 0 <= m < |xs| && HeldSince(xs, m))
  {
    var xs := ValidInputs(host, es);
    if es != [] {
      var front, e := es[..|es| - 1], es[|es| - 1];
      GateIsHysteresis(host, scoreText, front);
      if ValidProposal(host, e.p) {
        assert xs[..|xs| - 1] == ValidInputs(host, front) && xs[|xs| - 1] == InputsOf(host, e.p);
      } else {
        assert xs == ValidInputs(host, front);
      }
    }
    if xs != [] {
      HysteresisExact(xs);
    }
  }

  // The ledger operations of a run.
  function OpsOf(host: Host, scoreText: real -> FloatText, es: seq<Evaluation>): seq<Op> {
    if es == [] then []
    else
      var front, e := es[..|es| - 1], es[|es| - 1];
      OpsOf(host, scoreText, front)
      + if !ValidProposal(host, e.p) then []
        else [Append(EntryPayload(host, scoreText, e.target, e.p,
                Decide(GateRun(host, scoreText, front).active, InputsOf(host, e.p))), e.timestamp, e.outcome)]
  }

  // The decisions whose ledger line was written.
  function Recorded(host: Host, scoreText: real -> FloatText, es: seq<Evaluation>): seq<Decision> {
    if es == [] then []
    else
      var front, e := es[..|es| - 1], es[|es| - 1];
      Recorded(host, scoreText, front)
      + if !ValidProposal(host, e.p) || !Writes(e.outcome) then []
        else [Decide(GateRun(host, scoreText, front).active, InputsOf(host, e.p))]
  }

  lemma {:induction false} GateRunIsLedgerRun(host: Host, scoreText: real -> FloatText, es: seq<Evaluation>)
    ensures GateRun(host, scoreText, es).ledger == LedgerWriter.Run(host, Fresh(host), OpsOf(host, scoreText, es))
  {
    if es != [] {
      var front, e := es[..|es| - 1], es[|es| - 1];
      GateRunIsLedgerRun(host, scoreText, front);
      var ops, all := OpsOf(host, scoreText, front), OpsOf(host, scoreText, es);
      if ValidProposal(host, e.p) {
        assert all[..|all| - 1] == ops;
      } else {
        assert all == ops;
      }
    }
  }

  // The evaluation got as far as opening the ledger file.
  predicate OpensLedger(host: Host, e: Evaluation) {
    ValidProposal(host, e.p) && !e.outcome.NotOpened?
  }

  // Some valid evaluation's append opened the ledger file.
  ghost predicate LedgerOpened(host: Host, es: seq<Evaluation>) {
    exists k :: 0 <= k < |es| && OpensLedger(host, es[k])
  }

  lemma OpenedSnoc(host: Host, es: seq<Evaluation>, e: Evaluation)
    ensures LedgerOpened(host, es + [e]) <==> LedgerOpened(host, es) || OpensLedger(host, e)
  {
    var longer := es + [e];
    assert longer[|es|] == e && forall k :: 0 <= k < |es| ==> longer[k] == es[k];
  }

  lemma GateStepOpens(host: Host, scoreText: real -> FloatText, g: GateState, e: Evaluation)
    requires g.ledger.cache.Some? && (!g.ledger.present ==> g.ledger.lines == [])
    ensures var s := GateStep(host, scoreText, g, e).ledger;
      && s.cache.Some? && (!s.present ==> s.lines == [])
      && (s.present <==> g.ledger.present || OpensLedger(host, e))
  {}

  // A gate on a path without a file: the file exists exactly when some valid evaluation's append
  // opened it; after no evaluation, only invalid ones, or failed opens, there is none.
  lemma {:induction false} GateCreatesFile(host: Host, scoreText: real -> FloatText, es: seq<Evaluation>)
    ensures var s := GateRun(host, scoreText, es).ledger;
      && s.cache.Some? && (!s.present ==> s.lines == [])
      && (s.present <==> LedgerOpened(host, es))
  {
    if es != [] {
      var front, last := es[..|es| - 1], es[|es| - 1];
      GateCreatesFile(host, scoreText, front);
      GateStepOpens(host, scoreText, GateRun(host, scoreText, front), last);
      OpenedSnoc(host, front, last);
      assert es == front + [last];
    }
  }
}
