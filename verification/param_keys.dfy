/** Names of the entries of the network's parameter store.

    The source builds the keys of `self.params` by string concatenation
    ("W" + str(n), "b" + str(n), "gamma" + str(n), "beta" + str(n)).  The model
    uses the structured key `ParamKey(kind, n)` instead; `KeyName` is the
    string the source would build, and `KeyNameInjective` shows that distinct
    structured keys never collide as strings, so nothing is lost by the
    abstraction. */
module ParamKeys {

  /** The four families of learnable parameters of a layer. */
  datatype Kind = W | B | Gamma | Beta

  /** A parameter of layer `layer` (numbered from 1): "W3" is ParamKey(W, 3). */
  datatype ParamKey = ParamKey(kind: Kind, layer: nat)

  function Prefix(kind: Kind): string {
    match kind
    case W => "W"
    case B => "b"
    case Gamma => "gamma"
    case Beta => "beta"
  }

  predicate IsDigit(c: char) {
    '0' <= c <= '9'
  }

  function DigitChar(d: nat): (c: char)
    requires d < 10
    ensures IsDigit(c)
  {
    ('0' as int + d) as char
  }

  function DigitValue(c: char): (d: nat)
    requires IsDigit(c)
    ensures d < 10
  {
    c as int - '0' as int
  }

  /** Python's `str(n)` for a non-negative integer: decimal, no leading zeros. */
  function DecimalString(n: nat): (s: string)
    ensures |s| >= 1
    ensures forall i :: 0 <= i < |s| ==> IsDigit(s[i])
    ensures n >= 10 ==> s[0] != '0'
  {
    if n < 10 then [DigitChar(n)] else DecimalString(n / 10) + [DigitChar(n % 10)]
  }

  /** Reads a string of decimal digits back as a number (Python's `int(s)`). */
  function DecimalValue(s: string): nat
    requires forall i :: 0 <= i < |s| ==> IsDigit(s[i])
  {
    if |s| == 0 then 0 else DecimalValue(s[..|s| - 1]) * 10 + DigitValue(s[|s| - 1])
  }

  /** `int(str(n)) == n`. */
  lemma {:induction false} DecimalRoundTrip(n: nat)
    ensures DecimalValue(DecimalString(n)) == n
  {
    if n >= 10 {
      var s := DecimalString(n);
      assert s[..|s| - 1] == DecimalString(n / 10);
      DecimalRoundTrip(n / 10);
    }
  }

  /** The string key the source uses for `key`, e.g. "gamma2". */
  function KeyName(key: ParamKey): string {
    Prefix(key.kind) + DecimalString(key.layer)
  }

  /** Two keys whose strings coincide are the same key: the family is fixed by
      the letters before the first digit and the layer by the digits. */
  lemma KeyNameInjective(j: ParamKey, k: ParamKey)
    requires KeyName(j) == KeyName(k)
    ensures j == k
  {
    var s := KeyName(j);
    KindFromName(j);
    KindFromName(k);
    var p := |Prefix(j.kind)|;
    assert DecimalString(j.layer) == s[p..];
    assert DecimalString(k.layer) == s[p..];
    DecimalRoundTrip(j.layer);
    DecimalRoundTrip(k.layer);
  }

  /** The first two characters of a key's name tell its family apart. */
  lemma KindFromName(key: ParamKey)
    ensures |KeyName(key)| >= 2
    ensures key.kind == W <==> KeyName(key)[0] == 'W'
    ensures key.kind == Gamma <==> KeyName(key)[0] == 'g'
    ensures key.kind == B <==> KeyName(key)[0] == 'b' && IsDigit(KeyName(key)[1])
    ensures key.kind == Beta <==> KeyName(key)[0] == 'b' && KeyName(key)[1] == 'e'
  {
    var s := KeyName(key);
    var d := DecimalString(key.layer);
    match key.kind
    case W => assert s[0] == 'W';
    case Gamma => assert s[0] == 'g';
    case B => assert s[0] == 'b' && s[1] == d[0];
    case Beta => assert s[0] == 'b' && s[1] == 'e';
  }

  /** Whether `key` belongs in the parameter store of a network with
      `numLayers` affine layers: a weight and a bias for every layer, and a
      scale and a shift for every layer but the last when normalization is on. */
  predicate InLayout(key: ParamKey, numLayers: nat, normalized: bool) {
    1 <= key.layer &&
    match key.kind
    case W => key.layer <= numLayers
    case B => key.layer <= numLayers
    case Gamma => normalized && key.layer < numLayers
    case Beta => normalized && key.layer < numLayers
  }

  /** The key set of such a parameter store. */
  function Layout(numLayers: nat, normalized: bool): (keys: set<ParamKey>)
    ensures forall key :: key in keys <==> InLayout(key, numLayers, normalized)
  {
    set kind: Kind, k: nat | kind in {W, B, Gamma, Beta} && k <= numLayers && InLayout(ParamKey(kind, k), numLayers, normalized)
      :: ParamKey(kind, k)
  }

  /** Number of entries of the store: 2 per layer, plus 2 per hidden layer when
      normalization is on. */
  function LayoutSize(numLayers: nat, normalized: bool): nat {
    2 * numLayers + (if normalized && numLayers >= 1 then 2 * (numLayers - 1) else 0)
  }

  lemma {:induction false} LayoutCardinality(numLayers: nat, normalized: bool)
    ensures |Layout(numLayers, normalized)| == LayoutSize(numLayers, normalized)
  {
    if numLayers == 0 {
      assert Layout(0, normalized) == {};
    } else {
      var n := numLayers;
      var added := LayerKeys(n, normalized);
      LayoutGrows(n, normalized);
      LayoutCardinality(n - 1, normalized);
      assert |Layout(n - 1, normalized) + added| == |Layout(n - 1, normalized)| + |added|;
    }
  }

  /** The keys a network with `n` layers has and one with `n - 1` layers lacks. */
  function LayerKeys(n: nat, normalized: bool): (keys: set<ParamKey>)
    requires n >= 1
    ensures |keys| == (if normalized && n >= 2 then 4 else 2)
  {
    if normalized && n >= 2 then
      {ParamKey(W, n), ParamKey(B, n), ParamKey(Gamma, n - 1), ParamKey(Beta, n - 1)}
    else
      {ParamKey(W, n), ParamKey(B, n)}
  }

  lemma LayoutGrows(n: nat, normalized: bool)
    requires n >= 1
    ensures Layout(n, normalized) == Layout(n - 1, normalized) + LayerKeys(n, normalized)
    ensures Layout(n - 1, normalized) !! LayerKeys(n, normalized)
  {
    var older, added := Layout(n - 1, normalized), LayerKeys(n, normalized);
    forall key
      ensures key in Layout(n, normalized) <==> key in older || key in added
      ensures !(key in older && key in added)
    {
      LayoutGrowsAt(n, normalized, key);
    }
  }

  lemma LayoutGrowsAt(n: nat, normalized: bool, key: ParamKey)
    requires n >= 1
    ensures InLayout(key, n, normalized) <==> InLayout(key, n - 1, normalized) || key in LayerKeys(n, normalized)
    ensures !(InLayout(key, n - 1, normalized) && key in LayerKeys(n, normalized))
  {
  }
}
