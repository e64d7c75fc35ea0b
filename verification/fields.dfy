/** Signatures as ordered, role-tagged fields, and the choices `optimize` makes from them (main.py:152-165). */
module Fields {
  import opened Wrappers
  import opened Errors

  datatype Role = Input | Output

  datatype Field = Field(name: string, role: Role)

  /** A registered signature: its fields in declaration order and its instructions. */
  datatype Signature = Signature(fields: seq<Field>, instructions: string)

  /** A JSON value passed through the proxy; only equality is ever used on it. */
  type Value = string

  /** The field names in declaration order, as `list(sig.fields.keys())`. */
  function Names(fields: seq<Field>): (r: seq<string>)
    ensures |r| == |fields|
    ensures forall i :: 0 <= i < |fields| ==> r[i] == fields[i].name
  {
    if fields == [] then [] else [fields[0].name] + Names(fields[1..])
  }

  function FieldNames(fields: seq<Field>): set<string> {
    set f | f in fields :: f.name
  }

  /** The names of the fields tagged `role`, in declaration order. */
  function KeysWithRole(fields: seq<Field>, role: Role): (r: seq<string>)
    ensures |r| <= |fields|
    ensures forall k :: k in r <==> Field(k, role) in fields
  {
    if fields == [] then []
    else
      var rest := KeysWithRole(fields[1..], role);
      assert fields == [fields[0]] + fields[1..];
      if fields[0].role == role then [fields[0].name] + rest else rest
  }

  /** `input_keys` (main.py:152). */
  function InputKeys(sig: Signature): seq<string> {
    KeysWithRole(sig.fields, Input)
  }

  /** `output_keys` (main.py:162). */
  function OutputKeys(sig: Signature): seq<string> {
    KeysWithRole(sig.fields, Output)
  }

  /** Selection keeps declaration order: it distributes over concatenation. */
  lemma {:induction false} KeysWithRoleAppend(a: seq<Field>, b: seq<Field>, role: Role)
    ensures KeysWithRole(a + b, role) == KeysWithRole(a, role) + KeysWithRole(b, role)
  {
    if a == [] {
      assert a + b == b;
    } else {
      assert (a + b)[0] == a[0];
      assert (a + b)[1..] == a[1..] + b;
      KeysWithRoleAppend(a[1..], b, role);
    }
  }

  /** Every field is either an input key or an output key, exactly once. */
  lemma {:induction false} RolesPartitionNames(fields: seq<Field>)
    ensures multiset(KeysWithRole(fields, Input)) + multiset(KeysWithRole(fields, Output)) == multiset(Names(fields))
  {
    if fields != [] {
      RolesPartitionNames(fields[1..]);
    }
  }

  /** `output_keys[-1]`: the last declared output field, if any. */
  function LastOutputKey(fields: seq<Field>): (r: Option<string>)
    ensures r.None? <==> forall f :: f in fields ==> f.role == Input
    ensures r.Some? ==> Field(r.value, Output) in fields
  {
    var keys := KeysWithRole(fields, Output);
    if |keys| == 0 then
      assert forall f :: f in fields ==> f.role == Input by {
        forall f | f in fields ensures f.role == Input {
          assert f.name !in keys;
        }
      }
      None
    else
      assert keys[|keys| - 1] in keys;
      Some(keys[|keys| - 1])
  }

  /** A trailing input field does not change the last output field. */
  lemma LastOutputKeyAfterInput(fields: seq<Field>, name: string)
    ensures LastOutputKey(fields + [Field(name, Input)]) == LastOutputKey(fields)
  {
    KeysWithRoleAppend(fields, [Field(name, Input)], Output);
    assert KeysWithRole([Field(name, Input)], Output) == [];
    assert KeysWithRole(fields, Output) + [] == KeysWithRole(fields, Output);
  }

  /** A trailing output field is the last output field, whatever came before it. */
  lemma LastOutputKeyAfterOutput(fields: seq<Field>, name: string)
    ensures LastOutputKey(fields + [Field(name, Output)]) == Some(name)
  {
    KeysWithRoleAppend(fields, [Field(name, Output)], Output);
    assert KeysWithRole([Field(name, Output)], Output) == [name];
  }

  /** Field `i` is an output field and every field declared after it is an input. */
  ghost predicate IsLastOutputAt(fields: seq<Field>, i: int) {
    0 <= i < |fields| && fields[i].role == Output && forall j :: i < j < |fields| ==> fields[j].role == Input
  }

  /** `output_keys[-1]` is `k` exactly when `k` names an output field that no other output field follows. */
  lemma {:induction false} LastOutputKeyIsLast(fields: seq<Field>, k: string)
    ensures LastOutputKey(fields) == Some(k) <==> exists i :: IsLastOutputAt(fields, i) && fields[i].name == k
  {
    if fields != [] {
      var init, last := fields[..|fields| - 1], fields[|fields| - 1];
      assert fields == init + [last];
      if last.role == Output {
        assert last == Field(last.name, Output);
        LastOutputKeyAfterOutput(init, last.name);
        if LastOutputKey(fields) == Some(k) {
          assert IsLastOutputAt(fields, |fields| - 1);
        }
        forall i | IsLastOutputAt(fields, i) ensures i == |fields| - 1 {
        }
      } else {
        assert last == Field(last.name, Input);
        LastOutputKeyAfterInput(init, last.name);
        LastOutputKeyIsLast(init, k);
        assert !IsLastOutputAt(fields, |fields| - 1);
        forall i | 0 <= i < |init| ensures IsLastOutputAt(fields, i) <==> IsLastOutputAt(init, i) {
        }
      }
    }
  }

  /** The metric handed to the optimizer. */
  datatype Metric =
    | AnswerExactMatch               // the library's `answer_exact_match`
    | LastFieldEquals(field: string) // equality of one field of example and prediction

  /** The metric choice of main.py:157-165; the default needs at least one output field. */
  function ChooseMetric(metricName: string, sig: Signature): (r: Result<Metric, Failure>)
    ensures metricName == "exact_match" ==> r == Ok(AnswerExactMatch)
    ensures metricName != "exact_match" ==>
      (r == Err(NoOutputField) <==> forall f :: f in sig.fields ==> f.role == Input)
    ensures metricName != "exact_match" && r.Ok? ==>
      r.value.LastFieldEquals? && Field(r.value.field, Output) in sig.fields
    ensures metricName != "exact_match" && r.Ok? ==> Some(r.value.field) == LastOutputKey(sig.fields)
    ensures r.Err? ==> r.error == NoOutputField
  {
    if metricName == "exact_match" then Ok(AnswerExactMatch)
    else
      match LastOutputKey(sig.fields)
      case None => Err(NoOutputField)
      case Some(k) => Ok(LastFieldEquals(k))
  }

  /**
   * The default metric function (main.py:164-165). `getattr` on a missing attribute raises,
   * which is `None` here.
   */
  function DefaultMetricScore(field: string, example: map<string, Value>, pred: map<string, Value>): (r: Option<bool>)
    ensures r.Some? <==> field in example && field in pred
  {
    if field in example && field in pred then Some(example[field] == pred[field]) else None
  }

  /** The default metric looks at its one field only. */
  lemma DefaultMetricReadsOneField(field: string, e1: map<string, Value>, p1: map<string, Value>,
                                   e2: map<string, Value>, p2: map<string, Value>)
    requires (field in e1 <==> field in e2) && (field in p1 <==> field in p2)
    requires field in e1 ==> e1[field] == e2[field]
    requires field in p1 ==> p1[field] == p2[field]
    ensures DefaultMetricScore(field, e1, p1) == DefaultMetricScore(field, e2, p2)
  {
  }

  /** A prediction that repeats the example's field scores true; a different value scores false. */
  lemma DefaultMetricAgreement(field: string, example: map<string, Value>, pred: map<string, Value>)
    requires field in example && field in pred
    ensures DefaultMetricScore(field, example, pred) == Some(true) <==> pred[field] == example[field]
  {
  }

  /** A training example: its data and the keys marked as inputs by `with_inputs`. */
  datatype Example = Example(data: map<string, Value>, inputKeys: seq<string>)

  /**
   * The training set built at main.py:154: one example per record, in order; a key is marked as
   * an input exactly when the signature declares it as an input field.
   */
  function Trainset(sig: Signature, trainData: seq<map<string, Value>>): (r: seq<Example>)
    ensures |r| == |trainData|
    ensures forall i :: 0 <= i < |r| ==> r[i].data == trainData[i]
    ensures forall i, k :: 0 <= i < |r| ==> (k in r[i].inputKeys <==> Field(k, Input) in sig.fields)
  {
    var inputKeys := KeysWithRole(sig.fields, Input);
    var r := seq(|trainData|, i requires 0 <= i < |trainData| => Example(trainData[i], inputKeys));
    assert forall i :: 0 <= i < |r| ==> r[i].inputKeys == inputKeys;
    r
  }
}
