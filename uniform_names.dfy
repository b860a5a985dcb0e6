/**
 * The names under which the shader looks up its indexed uniforms, such as
 * `pointLights[2].base.color`, and the facts that make the lookup tables
 * sound: every name fits the 100-character buffer it is formatted into, and
 * no two table entries share a name.
 */
module UniformNames {

  predicate IsDigit(c: char) { '0' <= c <= '9' }

  predicate AllDigits(s: string) { forall k :: 0 <= k < |s| ==> IsDigit(s[k]) }

  function DigitChar(d: nat): (c: char)
    requires d < 10
    ensures IsDigit(c)
  {
    (48 + d) as char
  }

  function DigitValue(c: char): (d: nat)
    requires IsDigit(c)
    ensures d < 10
  {
    (c as int) - 48
  }

  /** `%d` formatting of a non-negative number: decimal digits, no leading zeros. */
  function Decimal(n: nat): (s: string)
    ensures 1 <= |s|
    ensures AllDigits(s)
    ensures |s| > 1 ==> s[0] != '0'
    decreases n
  {
    if n < 10 then [DigitChar(n)] else Decimal(n / 10) + [DigitChar(n % 10)]
  }

  /** The number a string of decimal digits denotes. */
  function DigitsValue(s: string): nat
    requires AllDigits(s)
  {
    if s == [] then 0 else DigitsValue(s[..|s| - 1]) * 10 + DigitValue(s[|s| - 1])
  }

  /** Reading back the digits `%d` writes gives the number that was formatted. */
  lemma {:induction false} DecimalRoundTrip(n: nat)
    ensures DigitsValue(Decimal(n)) == n
    decreases n
  {
    if n >= 10 {
      var s := Decimal(n);
      assert s[..|s| - 1] == Decimal(n / 10);
      DecimalRoundTrip(n / 10);
    }
  }

  lemma DecimalInjective(i: nat, j: nat)
    requires Decimal(i) == Decimal(j)
    ensures i == j
  {
    DecimalRoundTrip(i);
    DecimalRoundTrip(j);
  }

  function Pow10(k: nat): (p: nat)
    ensures p >= 1
  {
    if k == 0 then 1 else 10 * Pow10(k - 1)
  }

  /** A number below 10^k has at most k digits. */
  lemma {:induction false} DecimalLength(n: nat, k: nat)
    requires 1 <= k && n < Pow10(k)
    ensures |Decimal(n)| <= k
    decreases k
  {
    if n >= 10 {
      assert Pow10(1) == 10;
      assert n / 10 < Pow10(k - 1);
      DecimalLength(n / 10, k - 1);
    }
  }

  lemma DecimalLength32(n: nat)
    requires n < 0x1_0000_0000
    ensures |Decimal(n)| <= 10
  {
    assert Pow10(10) == 10_000_000_000 by {
      assert Pow10(1) == 10;
      assert Pow10(2) == 100;
      assert Pow10(3) == 1000;
      assert Pow10(4) == 10_000;
      assert Pow10(5) == 100_000;
      assert Pow10(6) == 1_000_000;
      assert Pow10(7) == 10_000_000;
      assert Pow10(8) == 100_000_000;
      assert Pow10(9) == 1_000_000_000;
    }
    DecimalLength(n, 10);
  }

  /** The size of the `locBuff` character buffers the names are formatted into. */
  const LocBuffSize: nat := 100

  /** What `snprintf(locBuff, 100, ...)` leaves in the buffer: at most 99 characters. */
  function Snprintf(s: string): (r: string)
    ensures |r| < LocBuffSize
    ensures |s| < LocBuffSize ==> r == s
    ensures r == s[..|r|]
  {
    if |s| < LocBuffSize then s else s[..LocBuffSize - 1]
  }

  datatype PointField =
    PointColor | PointAmbientIntensity | PointDiffuseIntensity | PointPosition
    | PointConstant | PointLinear | PointExponent

  datatype SpotField =
    SpotColor | SpotAmbientIntensity | SpotDiffuseIntensity | SpotPosition
    | SpotConstant | SpotLinear | SpotExponent | SpotDirection | SpotEdge

  datatype OmniField = OmniShadowMap | OmniFarPlane

  /** One entry of the indexed uniform tables the shader fills after linking. */
  datatype IndexedUniform =
    | PointLightUniform(index: nat, pointField: PointField)
    | SpotLightUniform(index: nat, spotField: SpotField)
    | LightMatrixUniform(index: nat)
    | OmniShadowUniform(index: nat, omniField: OmniField)

  /** The point-light struct fields: light colour and intensities sit in the nested `base`. */
  function PointSuffix(f: PointField): string
  {
    match f
    case PointColor => "].base.color"
    case PointAmbientIntensity => "].base.ambientIntensity"
    case PointDiffuseIntensity => "].base.diffuseIntensity"
    case PointPosition => "].position"
    case PointConstant => "].constant"
    case PointLinear => "].linear"
    case PointExponent => "].exponent"
  }

  /** The spot-light struct fields: a spot light extends a point light, hence `base.base.`. */
  function SpotSuffix(f: SpotField): string
  {
    match f
    case SpotColor => "].base.base.color"
    case SpotAmbientIntensity => "].base.base.ambientIntensity"
    case SpotDiffuseIntensity => "].base.base.diffuseIntensity"
    case SpotPosition => "].base.position"
    case SpotConstant => "].base.constant"
    case SpotLinear => "].base.linear"
    case SpotExponent => "].base.exponent"
    case SpotDirection => "].direction"
    case SpotEdge => "].edge"
  }

  function OmniSuffix(f: OmniField): string
  {
    match f
    case OmniShadowMap => "].shadowMap"
    case OmniFarPlane => "].farPlane"
  }

  function Prefix(u: IndexedUniform): string
  {
    match u
    case PointLightUniform(_, _) => "pointLights["
    case SpotLightUniform(_, _) => "spotLights["
    case LightMatrixUniform(_) => "lightMatrices["
    case OmniShadowUniform(_, _) => "omniShadowMaps["
  }

  function Suffix(u: IndexedUniform): (s: string)
    ensures 1 <= |s| <= 28 && s[0] == ']'
  {
    match u
    case PointLightUniform(_, f) => PointSuffix(f)
    case SpotLightUniform(_, f) => SpotSuffix(f)
    case LightMatrixUniform(_) => "]"
    case OmniShadowUniform(_, f) => OmniSuffix(f)
  }

  /** The full name, as the shader's `%d` format string spells it. */
  function IndexedName(u: IndexedUniform): string
  {
    Prefix(u) + Decimal(u.index) + Suffix(u)
  }

  /** The name actually passed to the location lookup: the buffer's contents. */
  function LocName(u: IndexedUniform): string
  {
    Snprintf(IndexedName(u))
  }

  /** No name is cut short by the 100-character buffer, whatever its 32-bit index. */
  lemma LocNameUntruncated(u: IndexedUniform)
    requires u.index < 0x1_0000_0000
    ensures |IndexedName(u)| < LocBuffSize
    ensures LocName(u) == IndexedName(u)
  {
    DecimalLength32(u.index);
  }

  /**
   * A digit run followed by a non-digit splits in only one way: if two strings
   * agree and each is digits then a part starting with a non-digit, both the
   * digits and the rests agree.
   */
  lemma DigitsSplit(a: string, s: string, b: string, t: string)
    requires AllDigits(a) && AllDigits(b)
    requires |s| > 0 && !IsDigit(s[0]) && |t| > 0 && !IsDigit(t[0])
    requires a + s == b + t
    ensures a == b && s == t
  {
    var m := if |a| < |b| then |a| else |b|;
    assert (a + s)[m] == (b + t)[m];
    assert a == (a + s)[..|a|];
    assert b == (b + t)[..|b|];
    assert s == (a + s)[|a|..];
    assert t == (b + t)[|b|..];
  }

  lemma PointSuffixInjective(f: PointField, g: PointField)
    requires PointSuffix(f) == PointSuffix(g)
    ensures f == g
  {
    assert PointSuffix(f)[2] == PointSuffix(g)[2];
    if PointSuffix(f)[2] == 'b' {
      assert PointSuffix(f)[7] == PointSuffix(g)[7];
    } else {
      assert PointSuffix(f)[3] == PointSuffix(g)[3];
    }
  }

  lemma SpotSuffixInjective(f: SpotField, g: SpotField)
    requires SpotSuffix(f) == SpotSuffix(g)
    ensures f == g
  {
    assert SpotSuffix(f)[2] == SpotSuffix(g)[2];
    if SpotSuffix(f)[2] == 'b' {
      assert SpotSuffix(f)[7] == SpotSuffix(g)[7];
      if SpotSuffix(f)[7] == 'b' {
        assert SpotSuffix(f)[12] == SpotSuffix(g)[12];
      } else {
        assert SpotSuffix(f)[8] == SpotSuffix(g)[8];
      }
    }
  }

  lemma OmniSuffixInjective(f: OmniField, g: OmniField)
    requires OmniSuffix(f) == OmniSuffix(g)
    ensures f == g
  {
    assert OmniSuffix(f)[2] == OmniSuffix(g)[2];
  }

  /** A name starts with its table's prefix, followed by the index digits and the field suffix. */
  lemma NameParts(u: IndexedUniform)
    ensures IndexedName(u)[0] == Prefix(u)[0]
    ensures IndexedName(u)[|Prefix(u)|..] == Decimal(u.index) + Suffix(u)
  {
    assert IndexedName(u) == Prefix(u) + (Decimal(u.index) + Suffix(u));
  }

  /** The four tables' prefixes already differ in their first character. */
  lemma PrefixDetermined(u: IndexedUniform, v: IndexedUniform)
    requires Prefix(u)[0] == Prefix(v)[0]
    ensures Prefix(u) == Prefix(v)
    ensures u.PointLightUniform? <==> v.PointLightUniform?
    ensures u.SpotLightUniform? <==> v.SpotLightUniform?
    ensures u.LightMatrixUniform? <==> v.LightMatrixUniform?
  {
  }

  /**
   * Every entry of the uniform tables has its own name: distinct lights,
   * distinct fields and distinct tables never ask for the same uniform.
   */
  lemma IndexedNamesDistinct(u: IndexedUniform, v: IndexedUniform)
    requires IndexedName(u) == IndexedName(v)
    ensures u == v
  {
    NameParts(u);
    NameParts(v);
    PrefixDetermined(u, v);
    DigitsSplit(Decimal(u.index), Suffix(u), Decimal(v.index), Suffix(v));
    DecimalInjective(u.index, v.index);
    match u
    case PointLightUniform(_, f) => PointSuffixInjective(f, v.pointField);
    case SpotLightUniform(_, f) => SpotSuffixInjective(f, v.spotField);
    case LightMatrixUniform(_) =>
    case OmniShadowUniform(_, f) => OmniSuffixInjective(f, v.omniField);
  }

  /** The same holds for the buffer contents the lookups receive. */
  lemma LocNamesDistinct(u: IndexedUniform, v: IndexedUniform)
    requires u.index < 0x1_0000_0000 && v.index < 0x1_0000_0000
    requires LocName(u) == LocName(v)
    ensures u == v
  {
    LocNameUntruncated(u);
    LocNameUntruncated(v);
    IndexedNamesDistinct(u, v);
  }
}
