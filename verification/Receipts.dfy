/** Termination receipts: the producer (terminator.ts), the server's verifier (termination.ts)
    and the stand-alone one (scripts/verify-receipt.mjs). */
module Receipts {
  import opened Types
  import opened Canonical
  import opened CanonicalReader

  datatype Key =
    | Version | KeyId | AgentId | AgentPrincipalId | Reason | IssuedAt
    | Steps | GrantsRevoked | MemoriesQuarantined | Contained | Signature
    | StepKey | OkKey | Detail | At

  function Units(s: string): (t: Text)
    ensures |t| == |s|
  {
    seq(|s|, i requires 0 <= i < |s| => if s[i] as int < 0x10000 then s[i] as int else 0xFFFD)
  }

  function Name(k: Key): Text {
    match k
    case Version => Units("version")
    case KeyId => Units("keyId")
    case AgentId => Units("agentId")
    case AgentPrincipalId => Units("agentPrincipalId")
    case Reason => Units("reason")
    case IssuedAt => Units("issuedAt")
    case Steps => Units("steps")
    case GrantsRevoked => Units("grantsRevoked")
    case MemoriesQuarantined => Units("memoriesQuarantined")
    case Contained => Units("contained")
    case Signature => Units("signature")
    case StepKey => Units("step")
    case OkKey => Units("ok")
    case Detail => Units("detail")
    case At => Units("at")
  }

  datatype StepName = Freeze | Revoke | Kill | Verify

  function StepText(n: StepName): Text {
    match n
    case Freeze => Units("freeze")
    case Revoke => Units("revoke")
    case Kill => Units("kill")
    case Verify => Units("verify")
  }

  const NORMAL_ORDER: seq<StepName> := [Freeze, Revoke, Kill, Verify]
  const FALLBACK_ORDER: seq<StepName> := [Freeze, Kill, Revoke, Verify]

  // --- Reading JSON values -----------------------------------------------

  /** Property read: absent properties, and properties of anything but an object, are
      undefined. */
  function Prop(v: Tree, k: Key): Option<Tree> {
    if v.TObj? && Name(k) in v.fields then Some(v.fields[Name(k)]) else None
  }

  predicate IsString(v: Option<Tree>) { v.Some? && v.value.TStr? }

  predicate IsBoolean(v: Option<Tree>) { v.Some? && v.value.TBool? }

  predicate Truthy(v: Option<Tree>) {
    && v.Some?
    && match v.value
       case TNull => false
       case TBool(b) => b
       case TInt(n) => n != 0
       case TStr(s) => s != []
       case _ => true
  }

  /** An array of pairwise different strings, as the size of a set built from it shows. */
  predicate IsIdList(v: Option<Tree>) {
    && v.Some? && v.value.TArr?
    && (forall i | 0 <= i < |v.value.items| :: v.value.items[i].TStr?)
    && |(set x | x in v.value.items)| == |v.value.items|
  }

  predicate HasReceiptFields(v: Tree) {
    && Prop(v, Version) == Some(TInt(2))
    && IsString(Prop(v, KeyId))
    && IsString(Prop(v, AgentId))
    && IsString(Prop(v, AgentPrincipalId))
    && IsString(Prop(v, Reason))
    && IsString(Prop(v, IssuedAt))
    && IsBoolean(Prop(v, Contained))
    && IsString(Prop(v, Signature))
    && IsIdList(Prop(v, GrantsRevoked))
    && IsIdList(Prop(v, MemoriesQuarantined))
    && Prop(v, Steps).Some? && Prop(v, Steps).value.TArr? && |Prop(v, Steps).value.items| == 4
  }

  // --- The server's structural check -------------------------------------

  /** The step names as the server collects them: null for anything but an object. */
  function ServerName(step: Tree): Option<Tree> {
    if step.TObj? then Prop(step, StepKey) else Some(TNull)
  }

  predicate ServerOrder(steps: seq<Tree>, expected: seq<StepName>)
    requires |steps| == |expected|
  {
    forall i | 0 <= i < |expected| :: ServerName(steps[i]) == Some(TStr(StepText(expected[i])))
  }

  predicate ServerStep(step: Tree) {
    && step.TObj?
    && IsString(Prop(step, StepKey))
    && IsBoolean(Prop(step, OkKey))
    && IsString(Prop(step, Detail))
    && IsString(Prop(step, At))
  }

  predicate ServerAccepts(v: Tree) {
    && v.TObj?
    && HasReceiptFields(v)
    && var steps := Prop(v, Steps).value.items;
       var normal := ServerOrder(steps, NORMAL_ORDER);
       var fallback := ServerOrder(steps, FALLBACK_ORDER);
       && (normal || fallback)
       && (forall i | 0 <= i < 4 :: ServerStep(steps[i]))
       && !(fallback && (Prop(steps[0], OkKey) != Some(TBool(false)) || Truthy(Prop(v, Contained))))
       && Prop(v, Contained) == Some(TBool(forall i | 0 <= i < 4 :: Prop(steps[i], OkKey) == Some(TBool(true))))
  }

  // --- The script's structural check -------------------------------------

  predicate ScriptOrder(steps: seq<Tree>, expected: seq<StepName>)
    requires |steps| == |expected|
  {
    forall i | 0 <= i < |expected| :: Prop(steps[i], StepKey) == Some(TStr(StepText(expected[i])))
  }

  predicate ScriptStep(step: Tree) {
    && Truthy(Some(step))
    && IsBoolean(Prop(step, OkKey))
    && IsString(Prop(step, Detail))
    && IsString(Prop(step, At))
  }

  predicate ScriptAccepts(v: Tree) {
    && Truthy(Some(v)) && (v.TObj? || v.TArr?) && !v.TArr?
    && HasReceiptFields(v)
    && var steps := Prop(v, Steps).value.items;
       var normal := ScriptOrder(steps, NORMAL_ORDER);
       var fallback := ScriptOrder(steps, FALLBACK_ORDER);
       && (normal || fallback)
       && (forall i | 0 <= i < 4 :: ScriptStep(steps[i]))
       && !(fallback && (Prop(steps[0], OkKey) != Some(TBool(false)) || Truthy(Prop(v, Contained))))
       && Prop(v, Contained) == Some(TBool(forall i | 0 <= i < 4 :: Truthy(Prop(steps[i], OkKey))))
  }

  /** Once the names of the four steps are in order, both tests of a step agree. */
  lemma StepsAgree(steps: seq<Tree>)
    requires |steps| == 4 && forall i | 0 <= i < 4 :: IsString(Prop(steps[i], StepKey))
    ensures (forall i | 0 <= i < 4 :: ServerStep(steps[i])) <==> (forall i | 0 <= i < 4 :: ScriptStep(steps[i]))
    ensures (forall i | 0 <= i < 4 :: ServerStep(steps[i])) ==>
              ((forall i | 0 <= i < 4 :: Prop(steps[i], OkKey) == Some(TBool(true)))
               <==> (forall i | 0 <= i < 4 :: Truthy(Prop(steps[i], OkKey))))
  {
    hide Name, Units;
    forall i | 0 <= i < 4
      ensures ServerStep(steps[i]) <==> ScriptStep(steps[i])
      ensures ServerStep(steps[i]) ==> (Prop(steps[i], OkKey) == Some(TBool(true)) <==> Truthy(Prop(steps[i], OkKey)))
    {
      assert IsString(Prop(steps[i], StepKey));
    }
  }

  /** Both checks accept exactly the same JSON values (and trees with holes, which JSON lacks). */
  lemma VerifiersAgree(v: Tree)
    ensures ServerAccepts(v) <==> ScriptAccepts(v)
  {
    hide Name, Units, Prop, ServerOrder, ScriptOrder, ServerStep, ScriptStep;
    if v.TObj? && HasReceiptFields(v) {
      var steps := Prop(v, Steps).value.items;
      SameOrders(steps, NORMAL_ORDER);
      SameOrders(steps, FALLBACK_ORDER);
      if ServerOrder(steps, NORMAL_ORDER) || ServerOrder(steps, FALLBACK_ORDER) {
        StepsAgree(steps);
      }
    }
  }

  lemma SameOrders(steps: seq<Tree>, expected: seq<StepName>)
    requires |steps| == |expected|
    ensures ServerOrder(steps, expected) <==> ScriptOrder(steps, expected)
    ensures ServerOrder(steps, expected) ==> forall i | 0 <= i < |steps| :: IsString(Prop(steps[i], StepKey))
  {
  }

  // --- Signing and verification ------------------------------------------

  /** Abstract cryptography: signing and checking a text, and a key's fingerprint. */
  datatype Crypto = Crypto(
    sign: (Text, Text) -> Text,
    check: (Text, Text, Text) -> bool,
    fingerprint: Text -> Text)

  /** What the key pair guarantees: whatever one key signs, the other accepts. */
  ghost predicate Matching(c: Crypto, privateKey: Text, publicKey: Text) {
    forall t: Text :: c.check(t, publicKey, c.sign(t, privateKey))
  }

  datatype Verdict = BadStructure | WrongKey | BadSignature | Valid

  function DropField(fields: seq<Field>, key: Text): seq<Field> {
    if fields == [] then []
    else if fields[0].key == key then DropField(fields[1..], key)
    else [fields[0]] + DropField(fields[1..], key)
  }

  /** A value as parsing JSON text yields it. */
  predicate Json(v: Value) { Clean(v) && NoHoles(v) }

  function VerifyReceipt(c: Crypto, receipt: Value, publicKey: Text): Verdict
    requires Json(receipt)
  {
    var tree := Meaning(receipt);
    if !ServerAccepts(tree) then BadStructure
    else if Prop(tree, KeyId) != Some(TStr(c.fingerprint(publicKey))) then WrongKey
    else
      var body := Obj(DropField(receipt.fields, Name(Signature)));
      if c.check(Canonicalize(body), publicKey, Prop(tree, Signature).value.s) then Valid else BadSignature
  }

  // --- The producer ------------------------------------------------------

  datatype StepRecord = StepRecord(name: StepName, ok: bool, detail: Text, at: Text)

  /** What one termination gathered: its four steps by name, in whatever order they ran. */
  datatype Evidence = Evidence(
    agentId: Text, principalId: Text, reason: Text, issuedAt: Text,
    freeze: StepRecord, revoke: StepRecord, kill: StepRecord, verify: StepRecord,
    revoked: seq<Text>, memories: seq<Text>)

  predicate EvidenceWellFormed(e: Evidence) {
    && e.freeze.name == Freeze && e.revoke.name == Revoke && e.kill.name == Kill && e.verify.name == Verify
    && (forall i, j | 0 <= i < j < |e.revoked| :: e.revoked[i] != e.revoked[j])
    && (forall i, j | 0 <= i < j < |e.memories| :: e.memories[i] != e.memories[j])
  }

  function StepsOf(e: Evidence): seq<StepRecord> {
    if e.freeze.ok then [e.freeze, e.revoke, e.kill, e.verify] else [e.freeze, e.kill, e.revoke, e.verify]
  }

  /** What the verifiers ask of the four steps: one of the two orders by name, the freeze
      deciding which. */
  predicate OrderedByFreeze(e: Evidence, steps: seq<StepRecord>) {
    && |steps| == 4 && steps[0] == e.freeze && {e.revoke, e.kill, e.verify} == {steps[1], steps[2], steps[3]}
    && forall i | 0 <= i < 4 :: steps[i].name == (if e.freeze.ok then NORMAL_ORDER else FALLBACK_ORDER)[i]
  }

  lemma StepsAreOrdered(e: Evidence)
    requires EvidenceWellFormed(e)
    ensures OrderedByFreeze(e, StepsOf(e))
  {
    var order := if e.freeze.ok then NORMAL_ORDER else FALLBACK_ORDER;
    assert order[0] == Freeze && order[3] == Verify && order[1] == (if e.freeze.ok then Revoke else Kill);
  }

  /** Authority goes before the kill only when the runtime could be frozen first. */
  method GatherSteps(e: Evidence) returns (steps: seq<StepRecord>)
    requires EvidenceWellFormed(e)
    ensures OrderedByFreeze(e, steps)
    ensures steps == StepsOf(e)
  {
    hide OrderedByFreeze;
    steps := [e.freeze];
    if e.freeze.ok {
      steps := steps + [e.revoke];
      steps := steps + [e.kill];
    } else {
      steps := steps + [e.kill];
      steps := steps + [e.revoke];
    }
    steps := steps + [e.verify];
    assert steps == StepsOf(e);
    StepsAreOrdered(e);
  }

  predicate AllOk(steps: seq<StepRecord>) {
    forall i | 0 <= i < |steps| :: steps[i].ok
  }

  function StepValue(s: StepRecord): Value {
    Obj([Field(Name(StepKey), Str(StepText(s.name))), Field(Name(OkKey), Bool(s.ok)),
         Field(Name(Detail), Str(s.detail)), Field(Name(At), Str(s.at))])
  }

  function StepValues(steps: seq<StepRecord>): seq<Value> {
    seq(|steps|, i requires 0 <= i < |steps| => StepValue(steps[i]))
  }

  function Strings(ids: seq<Text>): seq<Value> {
    seq(|ids|, i requires 0 <= i < |ids| => Str(ids[i]))
  }

  function BodyFields(e: Evidence, keyId: Text): seq<Field> {
    [ Field(Name(Version), Int(2)),
      Field(Name(KeyId), Str(keyId)),
      Field(Name(AgentId), Str(e.agentId)),
      Field(Name(AgentPrincipalId), Str(e.principalId)),
      Field(Name(Reason), Str(e.reason)),
      Field(Name(IssuedAt), Str(e.issuedAt)),
      Field(Name(Steps), Arr(StepValues(StepsOf(e)))),
      Field(Name(GrantsRevoked), Arr(Strings(e.revoked))),
      Field(Name(MemoriesQuarantined), Arr(Strings(e.memories))),
      Field(Name(Contained), Bool(AllOk(StepsOf(e)))) ]
  }

  function Issue(c: Crypto, e: Evidence, privateKey: Text, publicKey: Text): Value {
    var body := BodyFields(e, c.fingerprint(publicKey));
    Obj(body + [Field(Name(Signature), Str(c.sign(Canonicalize(Obj(body)), privateKey)))])
  }
}
