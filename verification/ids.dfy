/** Identifiers of compiled modules: `name + "_opt_" + str(count)`, and why each new one is fresh. */
module ModuleIds {

  predicate IsDigit(c: char) {
    '0' <= c <= '9'
  }

  function DigitChar(d: nat): (c: char)
    requires d < 10
    ensures IsDigit(c) && DigitValue(c) == d
  {
    ('0' as int + d) as char
  }

  function DigitValue(c: char): nat
    requires IsDigit(c)
  {
    (c as int) - ('0' as int)
  }

  /** Python's `str(n)` for a non-negative integer: decimal digits, no leading zero. */
  function Decimal(n: nat): (s: string)
    ensures |s| > 0
    ensures forall i :: 0 <= i < |s| ==> IsDigit(s[i])
    ensures |s| > 1 ==> s[0] != '0'
  {
    if n < 10 then [DigitChar(n)] else Decimal(n / 10) + [DigitChar(n % 10)]
  }

  /** The number spelled by the maximal run of decimal digits at the end of `s` (0 when there is none). */
  function TrailingNumber(s: string): nat
    decreases |s|
  {
    if |s| == 0 || !IsDigit(s[|s| - 1]) then 0
    else 10 * TrailingNumber(s[..|s| - 1]) + DigitValue(s[|s| - 1])
  }

  /** The key under which `optimize` stores a compiled program (main.py:180). */
  function MakeId(signatureName: string, count: nat): (id: string)
    ensures |id| > |signatureName| + 5 && id[..|signatureName| + 5] == signatureName + "_opt_"
    ensures IsDigit(id[|id| - 1])
  {
    signatureName + "_opt_" + Decimal(count)
  }

  /** Appending the decimal spelling of `n` to a text that does not end in a digit can be read back as `n`. */
  lemma {:induction false} TrailingNumberOfDecimal(prefix: string, n: nat)
    requires |prefix| == 0 || !IsDigit(prefix[|prefix| - 1])
    ensures TrailingNumber(prefix + Decimal(n)) == n
  {
    var s := prefix + Decimal(n);
    if n < 10 {
      assert s[..|s| - 1] == prefix;
    } else {
      var d := DigitChar(n % 10);
      assert s == (prefix + Decimal(n / 10)) + [d];
      assert s[..|s| - 1] == prefix + Decimal(n / 10);
      TrailingNumberOfDecimal(prefix, n / 10);
    }
  }

  /** Reading `str(n)` back gives `n`. */
  lemma DecimalRoundTrip(n: nat)
    ensures TrailingNumber(Decimal(n)) == n
  {
    TrailingNumberOfDecimal([], n);
    assert [] + Decimal(n) == Decimal(n);
  }

  /** The counter used to build an id can be recovered from the id alone. */
  lemma CountOfId(signatureName: string, count: nat)
    ensures TrailingNumber(MakeId(signatureName, count)) == count
  {
    var prefix := signatureName + "_opt_";
    assert prefix[|prefix| - 1] == '_';
    TrailingNumberOfDecimal(prefix, count);
    assert MakeId(signatureName, count) == prefix + Decimal(count);
  }

  /** Two ids are equal exactly when they were built from the same name and the same counter value. */
  lemma MakeIdInjective(a: string, i: nat, b: string, j: nat)
    ensures MakeId(a, i) == MakeId(b, j) <==> a == b && i == j
  {
    if MakeId(a, i) == MakeId(b, j) {
      CountOfId(a, i);
      CountOfId(b, j);
      var tail := "_opt_" + Decimal(i);
      assert MakeId(a, i) == a + tail && MakeId(b, j) == b + tail;
      assert a == (a + tail)[..|a|];
      assert b == (b + tail)[..|b|];
    }
  }

  /** Store invariant: the counter at the end of every key is below the current store size. */
  ghost predicate WellNumbered<V>(store: map<string, V>) {
    forall key :: key in store ==> TrailingNumber(key) < |store|
  }

  /** In a well-numbered store, the id built from the current size is not yet a key. */
  lemma FreshId<V>(store: map<string, V>, signatureName: string)
    requires WellNumbered(store)
    ensures MakeId(signatureName, |store|) !in store
  {
    CountOfId(signatureName, |store|);
  }

  /** Inserting under the fresh id grows the store by exactly one and keeps it well-numbered. */
  lemma InsertFresh<V>(store: map<string, V>, signatureName: string, program: V)
    requires WellNumbered(store)
    ensures MakeId(signatureName, |store|) !in store
    ensures |store[MakeId(signatureName, |store|) := program]| == |store| + 1
    ensures WellNumbered(store[MakeId(signatureName, |store|) := program])
  {
    var id := MakeId(signatureName, |store|);
    FreshId(store, signatureName);
    CountOfId(signatureName, |store|);
    var next := store[id := program];
    assert next.Keys == store.Keys + {id};
    assert |next| == |store| + 1;
  }
}
