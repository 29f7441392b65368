/** The adapter namespace `name.instance` and the normalisation of local ids. */
module Namespaces {
  import opened Values

  /** `s.startsWith(prefix)`: a plain prefix test, with no separator implied. */
  predicate StartsWith(s: string, prefix: string) {
    |prefix| <= |s| && s[..|prefix|] == prefix
  }

  /** The id a local operation hands to the store: unchanged when it already
      starts with the namespace, otherwise qualified as `namespace + "." + id`. */
  function NormaliseId(ns: string, id: string): (r: string)
    ensures StartsWith(r, ns)
    ensures StartsWith(id, ns) ==> r == id
    ensures !StartsWith(id, ns) ==> |r| == |ns| + 1 + |id| && r[|ns|] == '.' && r[|ns| + 1..] == id
  {
    if StartsWith(id, ns) then id
    else
      var r := ns + "." + id;
      assert r[..|ns|] == ns;
      r
  }

  /** Normalising twice is normalising once: an id that went through
      `setObjectNotExists` is not qualified again by `setObject`. */
  lemma NormaliseIdIdempotent(ns: string, id: string)
    ensures NormaliseId(ns, NormaliseId(ns, id)) == NormaliseId(ns, id)
  {
  }

  /** The short and the qualified spelling of a local id reach the same store entry. */
  lemma NormaliseIdQualifiedAlias(ns: string, id: string)
    requires !StartsWith(id, ns)
    ensures NormaliseId(ns, ns + "." + id) == NormaliseId(ns, id)
  {
    var q := ns + "." + id;
    assert q[..|ns|] == ns;
  }

  /** Two ids that do not start with the namespace reach distinct store entries
      exactly when they differ. */
  lemma NormaliseIdInjectiveOnShortIds(ns: string, a: string, b: string)
    requires !StartsWith(a, ns) && !StartsWith(b, ns)
    ensures NormaliseId(ns, a) == NormaliseId(ns, b) <==> a == b
  {
    if NormaliseId(ns, a) == NormaliseId(ns, b) {
      assert a == NormaliseId(ns, a)[|ns| + 1..];
    }
  }

  /** The prefix test has no dot: with namespace `test.0` the id `test.0x`
      counts as already namespaced and is not qualified. */
  lemma NormaliseIdDotlessPrefix()
    ensures NormaliseId("test.0", "test.0x") == "test.0x"
    ensures NormaliseId("test.0", "x") == "test.0.x"
  {
    assert "test.0x"[..6] == "test.0";
  }

  // Rendering of the instance number inside the template literal.

  function DigitChar(d: nat): char
    requires d < 10
  {
    "0123456789"[d]
  }

  function DigitValue(c: char): nat {
    if '0' <= c <= '9' then (c as int - '0' as int) as nat else 0
  }

  /** Decimal digits of a natural number, most significant first. */
  function NatDigits(n: nat): (r: string)
    ensures |r| > 0
    ensures forall i :: 0 <= i < |r| ==> '0' <= r[i] <= '9'
    decreases n
  {
    if n < 10 then [DigitChar(n)] else NatDigits(n / 10) + [DigitChar(n % 10)]
  }

  /** `${n}` for an integer: an optional minus sign followed by digits. */
  function DecimalString(n: int): string {
    if n < 0 then "-" + NatDigits(-n) else NatDigits(n)
  }

  /** Reads a string of digits back as a natural number. */
  function ParseNat(s: string): nat
    decreases |s|
  {
    if s == [] then 0 else 10 * ParseNat(s[..|s| - 1]) + DigitValue(s[|s| - 1])
  }

  /** Reads an optional minus sign and digits back as an integer. */
  function ParseInt(s: string): int {
    if |s| > 0 && s[0] == '-' then -(ParseNat(s[1..]) as int) else ParseNat(s)
  }

  lemma {:induction false} ParseNatDigits(n: nat)
    ensures ParseNat(NatDigits(n)) == n
    decreases n
  {
    if n >= 10 {
      ParseNatDigits(n / 10);
      var s := NatDigits(n);
      assert s[..|s| - 1] == NatDigits(n / 10);
    }
  }

  /** Rendering an instance number loses nothing: parsing it gives it back. */
  lemma DecimalStringRoundTrip(n: int)
    ensures ParseInt(DecimalString(n)) == n
  {
    if n < 0 {
      ParseNatDigits(-n);
      assert DecimalString(n)[1..] == NatDigits(-n);
    } else {
      ParseNatDigits(n);
      assert DecimalString(n)[0] != '-';
    }
  }

  /** `options.name || "test"`. */
  function AdapterName(name: Option<string>): (r: string)
    ensures r != ""
    ensures name.Some? && name.value != "" ==> r == name.value
    ensures name.None? || name.value == "" ==> r == "test"
  {
    match name
    case Some(n) => if n != "" then n else "test"
    case None => "test"
  }

  /** `options.instance || 0`: an absent instance and instance 0 both give 0. */
  function AdapterInstance(instance: Option<int>): (r: int)
    ensures instance.Some? ==> r == instance.value
    ensures instance.None? ==> r == 0
  {
    match instance
    case Some(i) => i
    case None => 0
  }

  /** `${options.name || "test"}.${options.instance || 0}`. */
  function MakeNamespace(name: Option<string>, instance: Option<int>): (ns: string)
    ensures |ns| > |AdapterName(name)| + 1
    ensures ns[..|AdapterName(name)|] == AdapterName(name)
    ensures ns[|AdapterName(name)|] == '.'
    ensures ns[|AdapterName(name)| + 1..] == DecimalString(AdapterInstance(instance))
  {
    AdapterName(name) + "." + DecimalString(AdapterInstance(instance))
  }

  /** Without options the namespace is `test.0`. */
  lemma DefaultNamespace()
    ensures MakeNamespace(None, None) == "test.0"
  {
  }

  /** Two instances of one adapter get distinct namespaces. */
  lemma NamespaceSeparatesInstances(name: Option<string>, i: int, j: int)
    requires i != j
    ensures MakeNamespace(name, Some(i)) != MakeNamespace(name, Some(j))
  {
    var n := |AdapterName(name)| + 1;
    DecimalStringRoundTrip(i);
    DecimalStringRoundTrip(j);
    assert MakeNamespace(name, Some(i))[n..] == DecimalString(i);
    assert MakeNamespace(name, Some(j))[n..] == DecimalString(j);
  }
}
