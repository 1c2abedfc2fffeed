/** Every receipt that termination produces is accepted, in any field order, and an accepted
    receipt says what was signed. */
module ReceiptProofs {
  import opened Types
  import opened GrantGraph
  import opened Canonical
  import opened CanonicalReader
  import opened Receipts

  /** Length and first unit tell the property names apart. */
  function Mark(k: Key): (nat, CodeUnit) {
    match k
    case Version => (7, 0x76)
    case KeyId => (5, 0x6B)
    case AgentId => (7, 0x61)
    case AgentPrincipalId => (16, 0x61)
    case Reason => (6, 0x72)
    case IssuedAt => (8, 0x69)
    case Steps => (5, 0x73)
    case GrantsRevoked => (13, 0x67)
    case MemoriesQuarantined => (19, 0x6D)
    case Contained => (9, 0x63)
    case Signature => (9, 0x73)
    case StepKey => (4, 0x73)
    case OkKey => (2, 0x6F)
    case Detail => (6, 0x64)
    case At => (2, 0x61)
  }

  lemma NameHasMark(k: Key)
    ensures |Name(k)| == Mark(k).0 > 0 && Name(k)[0] == Mark(k).1
  {
  }

  lemma NamesDiffer(a: Key, b: Key)
    ensures Name(a) == Name(b) <==> a == b
  {
    NameHasMark(a);
    NameHasMark(b);
  }

  lemma StepTextsDiffer(a: StepName, b: StepName)
    ensures StepText(a) == StepText(b) <==> a == b
  {
    assert Units("freeze")[0] == 0x66 && Units("revoke")[0] == 0x72 && Units("kill")[0] == 0x6B && Units("verify")[0] == 0x76;
  }

  // --- Objects with known keys -------------------------------------------

  ghost predicate KeyedBy(fields: seq<Field>, keys: seq<Key>) {
    && |fields| == |keys|
    && (forall i | 0 <= i < |fields| :: fields[i].key == Name(keys[i]))
    && (forall i, j | 0 <= i < j < |keys| :: keys[i] != keys[j])
  }

  lemma KeyedObject(fields: seq<Field>, keys: seq<Key>)
    requires KeyedBy(fields, keys)
    requires forall i | 0 <= i < |fields| :: Clean(fields[i].value)
    ensures Clean(Obj(fields))
    ensures forall i | 0 <= i < |fields| :: Prop(Meaning(Obj(fields)), keys[i]) == Some(Meaning(fields[i].value))
  {
    forall i, j | 0 <= i < j < |fields|
      ensures fields[i].key != fields[j].key
    {
      NamesDiffer(keys[i], keys[j]);
    }
    assert CleanFields(fields);
    forall i | 0 <= i < |fields|
      ensures Prop(Meaning(Obj(fields)), keys[i]) == Some(Meaning(fields[i].value))
    {
      assert FieldMeanings(fields)[fields[i].key] == Meaning(fields[i].value);
    }
  }

  const STEP_KEYS: seq<Key> := [StepKey, OkKey, Detail, At]

  lemma StepIsKeyed(s: StepRecord)
    ensures KeyedBy(StepValue(s).fields, STEP_KEYS)
    ensures forall i | 0 <= i < 4 :: Clean(StepValue(s).fields[i].value)
  {
    hide Name, Units, StepText;
  }

  /** Reading the i-th field of a step object. */
  lemma StepProp(s: StepRecord, i: nat)
    requires i < 4
    ensures Clean(StepValue(s)) && Clean(StepValue(s).fields[i].value)
    ensures Prop(Meaning(StepValue(s)), STEP_KEYS[i]) == Some(Meaning(StepValue(s).fields[i].value))
  {
    hide Name, Units, StepText, Meaning, Clean;
    StepIsKeyed(s);
    KeyedObject(StepValue(s).fields, STEP_KEYS);
  }

  lemma StepValueReads(s: StepRecord)
    ensures Clean(StepValue(s))
    ensures var t := Meaning(StepValue(s));
            && t.TObj?
            && Prop(t, StepKey) == Some(TStr(StepText(s.name)))
            && Prop(t, OkKey) == Some(TBool(s.ok))
            && Prop(t, Detail) == Some(TStr(s.detail))
            && Prop(t, At) == Some(TStr(s.at))
  {
    hide Name, Units, StepText, Clean;
    StepProp(s, 0);
    StepProp(s, 1);
    StepProp(s, 2);
    StepProp(s, 3);
  }

  const BODY_KEYS: seq<Key> := [Version, KeyId, AgentId, AgentPrincipalId, Reason, IssuedAt, Steps, GrantsRevoked, MemoriesQuarantined, Contained]

  lemma StringsClean(ids: seq<Text>)
    ensures Clean(Arr(Strings(ids)))
    ensures Meaning(Arr(Strings(ids))).TArr? && |Meaning(Arr(Strings(ids))).items| == |ids|
    ensures forall i | 0 <= i < |ids| :: Meaning(Arr(Strings(ids))).items[i] == TStr(ids[i])
  {
    if |ids| == 1 {
      assert Strings(ids)[0] == Str(ids[0]);
    }
  }

  lemma StepValuesClean(steps: seq<StepRecord>)
    ensures Clean(Arr(StepValues(steps)))
    ensures Meaning(Arr(StepValues(steps))).TArr? && |Meaning(Arr(StepValues(steps))).items| == |steps|
    ensures forall i | 0 <= i < |steps| :: Clean(StepValue(steps[i])) && Meaning(Arr(StepValues(steps))).items[i] == Meaning(StepValue(steps[i]))
  {
    forall i | 0 <= i < |steps|
      ensures Clean(StepValue(steps[i]))
    {
      StepValueReads(steps[i]);
    }
    if |steps| == 1 {
      assert StepValues(steps)[0] == StepValue(steps[0]);
    }
  }

  lemma {:induction false} DistinctSetSize(items: seq<Tree>)
    requires forall i, j | 0 <= i < j < |items| :: items[i] != items[j]
    ensures |(set x | x in items)| == |items|
  {
    if items != [] {
      DistinctSetSize(items[1..]);
      assert (set x | x in items) == {items[0]} + (set x | x in items[1..]);
      assert items[0] !in items[1..];
    }
  }

  lemma IdListAccepted(ids: seq<Text>)
    requires forall i, j | 0 <= i < j < |ids| :: ids[i] != ids[j]
    ensures Clean(Arr(Strings(ids))) && IsIdList(Some(Meaning(Arr(Strings(ids)))))
  {
    StringsClean(ids);
    DistinctSetSize(Meaning(Arr(Strings(ids))).items);
  }

  lemma BodyFieldsClean(e: Evidence, keyId: Text)
    ensures forall i | 0 <= i < |BodyFields(e, keyId)| :: Clean(BodyFields(e, keyId)[i].value)
    ensures KeyedBy(BodyFields(e, keyId), BODY_KEYS)
  {
    hide Name, Units, StepsOf, StepValues, Strings, Meaning, Canonicalize;
    StepValuesClean(StepsOf(e));
    StringsClean(e.revoked);
    StringsClean(e.memories);
  }

  function SignedFields(e: Evidence, keyId: Text, signature: Text): seq<Field> {
    BodyFields(e, keyId) + [Field(Name(Signature), Str(signature))]
  }

  const SIGNED_KEYS: seq<Key> := BODY_KEYS + [Signature]

  lemma SignedIsKeyed(e: Evidence, keyId: Text, signature: Text)
    ensures forall i | 0 <= i < 11 :: Clean(SignedFields(e, keyId, signature)[i].value)
    ensures |SignedFields(e, keyId, signature)| == 11 && KeyedBy(SignedFields(e, keyId, signature), SIGNED_KEYS)
  {
    BodyFieldsClean(e, keyId);
  }

  /** Reading the i-th field of a signed receipt. */
  lemma SignedProp(e: Evidence, keyId: Text, signature: Text, i: nat)
    requires i < 11
    ensures Clean(Obj(SignedFields(e, keyId, signature))) && Clean(SignedFields(e, keyId, signature)[i].value)
    ensures Prop(Meaning(Obj(SignedFields(e, keyId, signature))), SIGNED_KEYS[i])
            == Some(Meaning(SignedFields(e, keyId, signature)[i].value))
  {
    SignedIsKeyed(e, keyId, signature);
    KeyedObject(SignedFields(e, keyId, signature), SIGNED_KEYS);
  }

  lemma SignedTexts(e: Evidence, keyId: Text, signature: Text)
    ensures Clean(Obj(SignedFields(e, keyId, signature)))
    ensures var t := Meaning(Obj(SignedFields(e, keyId, signature)));
            && Prop(t, Version) == Some(TInt(2))
            && Prop(t, KeyId) == Some(TStr(keyId))
            && IsString(Prop(t, AgentId)) && IsString(Prop(t, AgentPrincipalId))
            && IsString(Prop(t, Reason)) && IsString(Prop(t, IssuedAt))
            && Prop(t, Signature) == Some(TStr(signature))
  {
    hide Name, Units, Canonicalize;
    SignedProp(e, keyId, signature, 0);
    SignedProp(e, keyId, signature, 1);
    SignedProp(e, keyId, signature, 2);
    SignedProp(e, keyId, signature, 3);
    SignedProp(e, keyId, signature, 4);
    SignedProp(e, keyId, signature, 5);
    SignedProp(e, keyId, signature, 10);
  }

  lemma SignedSteps(e: Evidence, keyId: Text, signature: Text)
    ensures Clean(Obj(SignedFields(e, keyId, signature))) && Clean(Arr(StepValues(StepsOf(e))))
    ensures var t := Meaning(Obj(SignedFields(e, keyId, signature)));
            && Prop(t, Steps) == Some(Meaning(Arr(StepValues(StepsOf(e)))))
            && Prop(t, Contained) == Some(TBool(AllOk(StepsOf(e))))
  {
    hide Name, Units, Canonicalize;
    SignedProp(e, keyId, signature, 6);
    SignedProp(e, keyId, signature, 9);
  }

  lemma SignedIds(e: Evidence, keyId: Text, signature: Text)
    ensures Clean(Obj(SignedFields(e, keyId, signature)))
    ensures Clean(Arr(Strings(e.revoked))) && Clean(Arr(Strings(e.memories)))
    ensures var t := Meaning(Obj(SignedFields(e, keyId, signature)));
            && Prop(t, GrantsRevoked) == Some(Meaning(Arr(Strings(e.revoked))))
            && Prop(t, MemoriesQuarantined) == Some(Meaning(Arr(Strings(e.memories))))
  {
    SignedProp(e, keyId, signature, 7);
    SignedProp(e, keyId, signature, 8);
  }

  /** What the four step objects of a receipt read as. */
  ghost predicate StepsRead(steps: seq<Tree>, records: seq<StepRecord>) {
    && |steps| == |records| == 4
    && ServerOrder(steps, if records[0].ok then NORMAL_ORDER else FALLBACK_ORDER)
    && !ServerOrder(steps, if records[0].ok then FALLBACK_ORDER else NORMAL_ORDER)
    && (forall i | 0 <= i < 4 :: ServerStep(steps[i]) && Prop(steps[i], OkKey) == Some(TBool(records[i].ok)))
  }

  /** One step object of a receipt. */
  lemma StepAccepted(records: seq<StepRecord>, i: nat)
    requires i < |records|
    ensures Clean(Arr(StepValues(records)))
    ensures var steps := Meaning(Arr(StepValues(records))).items;
            && |steps| == |records| && ServerStep(steps[i]) && Prop(steps[i], OkKey) == Some(TBool(records[i].ok))
            && ServerName(steps[i]) == Some(TStr(StepText(records[i].name)))
  {
    StepValuesClean(records);
    StepValueReads(records[i]);
  }

  lemma OrderOf(records: seq<StepRecord>, expected: seq<StepName>)
    requires |records| == |expected| == 4 && Clean(Arr(StepValues(records)))
    requires |Meaning(Arr(StepValues(records))).items| == 4
    ensures ServerOrder(Meaning(Arr(StepValues(records))).items, expected)
            <==> forall i | 0 <= i < 4 :: records[i].name == expected[i]
  {
    var steps := Meaning(Arr(StepValues(records))).items;
    forall i | 0 <= i < 4
      ensures ServerName(steps[i]) == Some(TStr(StepText(expected[i]))) <==> records[i].name == expected[i]
    {
      StepAccepted(records, i);
      StepTextsDiffer(records[i].name, expected[i]);
    }
  }

  lemma RecordOrder(e: Evidence)
    requires EvidenceWellFormed(e)
    ensures |StepsOf(e)| == 4 && StepsOf(e)[0].ok == e.freeze.ok
    ensures (forall i | 0 <= i < 4 :: StepsOf(e)[i].name == NORMAL_ORDER[i]) <==> e.freeze.ok
    ensures (forall i | 0 <= i < 4 :: StepsOf(e)[i].name == FALLBACK_ORDER[i]) <==> !e.freeze.ok
  {
    assert StepsOf(e)[1].name == if e.freeze.ok then Revoke else Kill;
    assert NORMAL_ORDER[1] == Revoke && FALLBACK_ORDER[1] == Kill;
  }

  lemma StepOrders(e: Evidence)
    requires EvidenceWellFormed(e)
    ensures Clean(Arr(StepValues(StepsOf(e))))
    ensures var steps := Meaning(Arr(StepValues(StepsOf(e)))).items;
            && |steps| == 4
            && (ServerOrder(steps, NORMAL_ORDER) <==> e.freeze.ok)
            && (ServerOrder(steps, FALLBACK_ORDER) <==> !e.freeze.ok)
  {
    RecordOrder(e);
    StepValuesClean(StepsOf(e));
    OrderOf(StepsOf(e), NORMAL_ORDER);
    OrderOf(StepsOf(e), FALLBACK_ORDER);
  }

  lemma EachStep(records: seq<StepRecord>)
    requires |records| == 4
    ensures Clean(Arr(StepValues(records)))
    ensures var steps := Meaning(Arr(StepValues(records))).items;
            |steps| == 4 && forall i | 0 <= i < 4 :: ServerStep(steps[i]) && Prop(steps[i], OkKey) == Some(TBool(records[i].ok))
  {
    StepValuesClean(records);
    forall i | 0 <= i < 4
      ensures var steps := Meaning(Arr(StepValues(records))).items;
              ServerStep(steps[i]) && Prop(steps[i], OkKey) == Some(TBool(records[i].ok))
    {
      StepAccepted(records, i);
    }
  }

  lemma StepsAccepted(e: Evidence)
    requires EvidenceWellFormed(e)
    ensures Clean(Arr(StepValues(StepsOf(e))))
    ensures StepsRead(Meaning(Arr(StepValues(StepsOf(e)))).items, StepsOf(e))
  {
    RecordOrder(e);
    StepOrders(e);
    EachStep(StepsOf(e));
  }

  /** The structural check, given what reading each property yields. */
  lemma AcceptedFrom(t: Tree, steps: seq<Tree>, records: seq<StepRecord>)
    requires t.TObj? && HasReceiptFields(t) && Prop(t, Steps) == Some(TArr(steps)) && StepsRead(steps, records)
    requires Prop(t, Contained) == Some(TBool(AllOk(records)))
    ensures ServerAccepts(t)
  {
    assert AllOk(records) <==> forall i | 0 <= i < 4 :: Prop(steps[i], OkKey) == Some(TBool(true));
    assert !records[0].ok ==> !AllOk(records);
  }

  lemma ProducedFields(e: Evidence, keyId: Text, signature: Text)
    requires EvidenceWellFormed(e)
    ensures Clean(Obj(SignedFields(e, keyId, signature)))
    ensures HasReceiptFields(Meaning(Obj(SignedFields(e, keyId, signature))))
  {
    SignedTexts(e, keyId, signature);
    SignedSteps(e, keyId, signature);
    StepValuesClean(StepsOf(e));
    SignedIds(e, keyId, signature);
    IdListAccepted(e.revoked);
    IdListAccepted(e.memories);
  }

  lemma ProducedAccepted(e: Evidence, keyId: Text, signature: Text)
    requires EvidenceWellFormed(e)
    ensures Clean(Obj(SignedFields(e, keyId, signature)))
    ensures ServerAccepts(Meaning(Obj(SignedFields(e, keyId, signature))))
  {
    ProducedFields(e, keyId, signature);
    SignedSteps(e, keyId, signature);
    StepsAccepted(e);
    AcceptedFrom(Meaning(Obj(SignedFields(e, keyId, signature))), Meaning(Arr(StepValues(StepsOf(e)))).items, StepsOf(e));
  }

  // --- The body that is signed and the body that is checked ---------------

  lemma {:induction false} DroppedFields(fields: seq<Field>, key: Text)
    requires CleanFields(fields)
    ensures CleanFields(DropField(fields, key))
    ensures forall f :: f in DropField(fields, key) <==> f in fields && f.key != key
  {
    if fields != [] {
      DroppedFields(fields[1..], key);
      var rest := DropField(fields[1..], key);
      forall j | 0 <= j < |rest|
        ensures rest[j].key != fields[0].key
      {
        assert rest[j] in fields[1..];
      }
    }
  }

  lemma FieldOfKey(fields: seq<Field>, k: Text) returns (f: Field)
    requires CleanFields(fields) && k in FieldMeanings(fields)
    ensures f in fields && f.key == k && Clean(f.value) && FieldMeanings(fields)[k] == Meaning(f.value)
  {
    var i :| 0 <= i < |fields| && fields[i].key == k && !fields[i].value.Undefined?;
    f := fields[i];
  }

  lemma KeyOfField(fields: seq<Field>, f: Field)
    requires CleanFields(fields) && f in fields && !f.value.Undefined?
    ensures Clean(f.value) && f.key in FieldMeanings(fields) && FieldMeanings(fields)[f.key] == Meaning(f.value)
  {
    var i :| 0 <= i < |fields| && fields[i] == f;
  }

  lemma DroppedAt(fields: seq<Field>, key: Text, k: Text)
    requires CleanFields(fields)
    ensures CleanFields(DropField(fields, key))
    ensures k in FieldMeanings(DropField(fields, key)) <==> k in FieldMeanings(fields) && k != key
    ensures k in FieldMeanings(DropField(fields, key)) ==> FieldMeanings(DropField(fields, key))[k] == FieldMeanings(fields)[k]
  {
    DroppedFields(fields, key);
    var rest := DropField(fields, key);
    if k in FieldMeanings(rest) {
      var f := FieldOfKey(rest, k);
      KeyOfField(fields, f);
    } else if k in FieldMeanings(fields) {
      var f := FieldOfKey(fields, k);
      if k != key {
        KeyOfField(rest, f);
      }
    }
  }

  lemma DroppedMeaning(fields: seq<Field>, key: Text)
    requires CleanFields(fields)
    ensures CleanFields(DropField(fields, key))
    ensures FieldMeanings(DropField(fields, key)) == FieldMeanings(fields) - {key}
  {
    DroppedFields(fields, key);
    forall k: Text
      ensures k in FieldMeanings(DropField(fields, key)) <==> k in FieldMeanings(fields) && k != key
      ensures k in FieldMeanings(DropField(fields, key)) ==> FieldMeanings(DropField(fields, key))[k] == FieldMeanings(fields)[k]
    {
      DroppedAt(fields, key, k);
    }
    MapMinus(FieldMeanings(fields), FieldMeanings(DropField(fields, key)), key);
  }

  lemma MapMinus(before: map<Text, Tree>, after: map<Text, Tree>, key: Text)
    requires forall k :: k in after <==> k in before && k != key
    requires forall k | k in after :: after[k] == before[k]
    ensures after == before - {key}
  {
  }

  lemma {:induction false} DropAppended(fields: seq<Field>, f: Field)
    requires forall i | 0 <= i < |fields| :: fields[i].key != f.key
    ensures DropField(fields + [f], f.key) == fields
  {
    if fields == [] {
      assert fields + [f] == [f];
      assert [f][1..] == [];
    } else {
      assert (fields + [f])[1..] == fields[1..] + [f];
      DropAppended(fields[1..], f);
    }
  }

  lemma SignatureDrops(e: Evidence, keyId: Text, signature: Text)
    ensures DropField(SignedFields(e, keyId, signature), Name(Signature)) == BodyFields(e, keyId)
  {
    var body := BodyFields(e, keyId);
    BodyFieldsClean(e, keyId);
    forall i | 0 <= i < |body|
      ensures body[i].key != Name(Signature)
    {
      NamesDiffer(BODY_KEYS[i], Signature);
    }
    DropAppended(body, Field(Name(Signature), Str(signature)));
  }

  /** Dropping a field respects equality of meaning. */
  lemma DropRespectsMeaning(a: Value, b: Value, key: Text)
    requires Clean(a) && Clean(b) && a.Obj? && b.Obj? && Meaning(a) == Meaning(b)
    ensures Clean(Obj(DropField(a.fields, key))) && Clean(Obj(DropField(b.fields, key)))
    ensures Meaning(Obj(DropField(a.fields, key))) == Meaning(Obj(DropField(b.fields, key)))
  {
    DroppedMeaning(a.fields, key);
    DroppedMeaning(b.fields, key);
  }

  /** Removing the signature from any copy of an issued receipt, whatever its field order,
      gives back the text that was signed. */
  lemma SignedTextRecovered(e: Evidence, keyId: Text, signature: Text, copy: Value)
    requires Clean(copy) && copy.Obj? && Clean(Obj(SignedFields(e, keyId, signature)))
    requires Meaning(copy) == Meaning(Obj(SignedFields(e, keyId, signature)))
    ensures Canonicalize(Obj(DropField(copy.fields, Name(Signature)))) == Canonicalize(Obj(BodyFields(e, keyId)))
  {
    SignatureDrops(e, keyId, signature);
    DropRespectsMeaning(copy, Obj(SignedFields(e, keyId, signature)), Name(Signature));
    CanonicalTextIsMeaning(Obj(DropField(copy.fields, Name(Signature))), Obj(BodyFields(e, keyId)));
  }

  lemma StepValuesHaveNoHoles(steps: seq<StepRecord>)
    ensures NoHoles(Arr(StepValues(steps)))
  {
    hide Name, Units, StepText;
    forall i | 0 <= i < |steps|
      ensures NoHoles(StepValue(steps[i]))
    {
    }
  }

  lemma StringsHaveNoHoles(ids: seq<Text>)
    ensures NoHoles(Arr(Strings(ids)))
  {
    var items := Strings(ids);
    forall i | 0 <= i < |items|
      ensures !items[i].Undefined? && NoHoles(items[i])
    {
      assert items[i] == Str(ids[i]);
    }
  }

  lemma SignedHasNoHoles(e: Evidence, keyId: Text, signature: Text)
    ensures NoHoles(Obj(SignedFields(e, keyId, signature)))
  {
    hide Name, Units, StepsOf, StepValues, Strings;
    StepValuesHaveNoHoles(StepsOf(e));
    StringsHaveNoHoles(e.revoked);
    StringsHaveNoHoles(e.memories);
    var fields := SignedFields(e, keyId, signature);
    assert forall i | 0 <= i < 11 :: NoHoles(fields[i].value);
  }

  lemma IssuedIsJson(c: Crypto, e: Evidence, privateKey: Text, publicKey: Text)
    ensures Json(Issue(c, e, privateKey, publicKey))
  {
    hide BodyFields, Name, Canonicalize, Clean, NoHoles;
    var keyId := c.fingerprint(publicKey);
    var signature := c.sign(Canonicalize(Obj(BodyFields(e, keyId))), privateKey);
    SignedTexts(e, keyId, signature);
    SignedHasNoHoles(e, keyId, signature);
    assert Issue(c, e, privateKey, publicKey) == Obj(SignedFields(e, keyId, signature));
  }

  /** An issued receipt, known to be JSON. */
  function Issued(c: Crypto, e: Evidence, privateKey: Text, publicKey: Text): (v: Value)
    ensures Json(v)
  {
    IssuedIsJson(c, e, privateKey, publicKey);
    Issue(c, e, privateKey, publicKey)
  }

  /** Every receipt produced, on either step order and any step outcomes, is accepted under
      the matching key, and so is every re-ordered copy of it. */
  lemma ProducedReceiptsVerify(c: Crypto, e: Evidence, privateKey: Text, publicKey: Text, copy: Value)
    requires EvidenceWellFormed(e) && Matching(c, privateKey, publicKey)
    requires Json(copy) && Meaning(copy) == Meaning(Issued(c, e, privateKey, publicKey))
    ensures VerifyReceipt(c, copy, publicKey) == Valid
  {
    var keyId := c.fingerprint(publicKey);
    var signature := c.sign(Canonicalize(Obj(BodyFields(e, keyId))), privateKey);
    ProducedAccepted(e, keyId, signature);
    SignedTexts(e, keyId, signature);
    SignedTextRecovered(e, keyId, signature, copy);
  }

  /** Identifiers as they are printed. */
  function Printed(ids: seq<Id>, text: Id -> Text): seq<Text> {
    seq(|ids|, i requires 0 <= i < |ids| => text(ids[i]))
  }

  /** What a termination gathers is what the verifiers expect: the revoke step lists no id twice. */
  lemma GatheredIsWellFormed(e: Evidence, revoked: seq<Id>, quarantined: seq<Id>, text: Id -> Text)
    requires e.freeze.name == Freeze && e.revoke.name == Revoke && e.kill.name == Kill && e.verify.name == Verify
    requires NoDuplicates(revoked) && NoDuplicates(quarantined) && forall a, b | text(a) == text(b) :: a == b
    requires e.revoked == Printed(revoked, text) && e.memories == Printed(quarantined, text)
    ensures EvidenceWellFormed(e)
  {
  }

  /** With a signature check that only passes for texts the key holder signed, an accepted
      receipt carries exactly the contents of some signed body. */
  lemma AcceptedSaysWhatWasSigned(c: Crypto, publicKey: Text, signed: set<Value>, receipt: Value)
    requires Json(receipt) && forall b | b in signed :: Clean(b)
    requires forall t: Text, s: Text | c.check(t, publicKey, s) :: exists b | b in signed :: t == Canonicalize(b)
    requires VerifyReceipt(c, receipt, publicKey) == Valid
    ensures receipt.Obj? && Clean(Obj(DropField(receipt.fields, Name(Signature))))
    ensures exists b | b in signed :: Meaning(b) == Meaning(Obj(DropField(receipt.fields, Name(Signature))))
  {
    var body := Obj(DropField(receipt.fields, Name(Signature)));
    DroppedFields(receipt.fields, Name(Signature));
    var b :| b in signed && Canonicalize(body) == Canonicalize(b);
    CanonicalTextIsMeaning(body, b);
  }
}
