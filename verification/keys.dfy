/**
 * React list keys derived from content.
 *
 * Service cards are keyed by the title lower-cased with every character outside
 * `[a-z0-9]` turned into `-` (client/src/pages/Service.jsx:7). About's entries use the
 * same slug followed by `-` and the decimal index (client/src/pages/About.jsx:5).
 */
module StableKey {
  import opened Optional
  import Ascii
  import opened SiteContent

  /** A character that can appear in a key slug. */
  predicate IsSlugChar(c: char) {
    Ascii.IsLower(c) || Ascii.IsDigit(c) || c == '-'
  }

  /** One character of `toLowerCase().replace(/[^a-z0-9]/g, '-')`. */
  function SlugChar(c: char): char {
    var l := Ascii.ToLower(c);
    if Ascii.IsLower(l) || Ascii.IsDigit(l) then l else '-'
  }

  /** `generateStableKey(title)` of the Service page. */
  function Slug(title: string): (key: string)
    ensures |key| == |title|
    ensures forall i :: 0 <= i < |key| ==> IsSlugChar(key[i])
  {
    seq(|title|, i requires 0 <= i < |title| => SlugChar(title[i]))
  }

  /**
   * Character by character, an upper-case ASCII letter becomes its lower-case letter,
   * lower-case letters and digits are kept, and everything else becomes `-`.
   */
  lemma SlugCharacters(title: string)
    ensures forall i :: 0 <= i < |title| && Ascii.IsUpper(title[i]) ==>
      Ascii.IsLower(Slug(title)[i]) && Ascii.ToUpper(Slug(title)[i]) == title[i]
    ensures forall i :: 0 <= i < |title| && (Ascii.IsLower(title[i]) || Ascii.IsDigit(title[i])) ==>
      Slug(title)[i] == title[i]
    ensures forall i :: 0 <= i < |title| && !Ascii.IsUpper(title[i]) && !Ascii.IsLower(title[i]) && !Ascii.IsDigit(title[i]) ==>
      Slug(title)[i] == '-'
  {
  }

  /** A slug is its own slug. */
  lemma SlugIdempotent(title: string)
    ensures Slug(Slug(title)) == Slug(title)
  {
  }

  /** The decimal digit for `d`. */
  function DigitChar(d: nat): (c: char)
    requires d < 10
    ensures Ascii.IsDigit(c)
  {
    ('0' as int + d) as char
  }

  function DigitValue(c: char): nat
    requires Ascii.IsDigit(c)
  {
    c as int - '0' as int
  }

  predicate AllDigits(s: string) {
    forall i :: 0 <= i < |s| ==> Ascii.IsDigit(s[i])
  }

  /** `${n}` for a non-negative integer: its decimal digits, without leading zeros. */
  function Decimal(n: nat): (s: string)
    ensures |s| >= 1
    ensures AllDigits(s)
    ensures |s| > 1 ==> s[0] != '0'
    decreases n
  {
    if n < 10 then [DigitChar(n)] else Decimal(n / 10) + [DigitChar(n % 10)]
  }

  /** The number a string of decimal digits denotes. */
  function DigitsValue(s: string): nat
    requires AllDigits(s)
    decreases |s|
  {
    if |s| == 0 then 0 else DigitsValue(s[..|s| - 1]) * 10 + DigitValue(s[|s| - 1])
  }

  /** Reading back the decimal digits of `n` gives `n`. */
  lemma {:induction false} DecimalRoundTrip(n: nat)
    ensures DigitsValue(Decimal(n)) == n
    decreases n
  {
    if n >= 10 {
      DecimalRoundTrip(n / 10);
      var d := Decimal(n);
      assert d[..|d| - 1] == Decimal(n / 10);
    }
  }

  function Pow10(k: nat): (r: nat)
    ensures r >= 1
  {
    if k == 0 then 1 else 10 * Pow10(k - 1)
  }

  /** `Decimal(n)` has the number of digits of `n`: `10^(len-1) <= n < 10^len` (for `n` at least 1). */
  lemma {:induction false} DecimalLength(n: nat)
    ensures n < Pow10(|Decimal(n)|)
    ensures n >= 1 ==> Pow10(|Decimal(n)| - 1) <= n
    decreases n
  {
    if n >= 10 {
      DecimalLength(n / 10);
    }
  }

  /** `generateStableKey(str, index)` of the About page: slug, `-`, decimal index. */
  function IndexedKey(str: string, index: nat): (key: string)
    ensures |key| == |str| + 1 + |Decimal(index)|
    ensures key[..|str|] == Slug(str) && key[|str|] == '-' && key[|str| + 1..] == Decimal(index)
  {
    Slug(str) + "-" + Decimal(index)
  }

  /** Position of the last `-` in `s`, if there is one. */
  function LastDash(s: string): (r: Option<nat>)
    ensures r.Some? ==> r.value < |s| && s[r.value] == '-' && forall k :: r.value < k < |s| ==> s[k] != '-'
    ensures r.None? ==> forall k :: 0 <= k < |s| ==> s[k] != '-'
    decreases |s|
  {
    if |s| == 0 then None
    else if s[|s| - 1] == '-' then Some(|s| - 1)
    else LastDash(s[..|s| - 1])
  }

  /** The two parts of an About key. */
  datatype KeyParts = KeyParts(slug: string, index: nat)

  /**
   * Splits a key at its last `-`: what follows must be a decimal number without leading
   * zeros, and what precedes is the slug.
   */
  function DecodeKey(key: string): (r: Option<KeyParts>)
    ensures r.Some? ==> |r.value.slug| < |key| && key[|r.value.slug|] == '-' && key[..|r.value.slug|] == r.value.slug
  {
    match LastDash(key)
    case None => None
    case Some(p) =>
      var digits := key[p + 1..];
      if |digits| > 0 && AllDigits(digits) && (|digits| == 1 || digits[0] != '0')
      then Some(KeyParts(key[..p], DigitsValue(digits)))
      else None
  }

  /** An About key decodes to the slug and the index it was built from. */
  lemma DecodeIndexedKey(str: string, index: nat)
    ensures DecodeKey(IndexedKey(str, index)) == Some(KeyParts(Slug(str), index))
  {
    var key := IndexedKey(str, index);
    var d := Decimal(index);
    var p := LastDash(key);
    assert forall k :: |str| < k < |key| ==> key[k] == d[k - |str| - 1];
    assert p == Some(|str|);
    assert key[|str| + 1..] == d;
    DecimalRoundTrip(index);
  }

  /** Equal About keys have equal indices and equal slugs. */
  lemma IndexedKeyInjective(s1: string, i1: nat, s2: string, i2: nat)
    requires IndexedKey(s1, i1) == IndexedKey(s2, i2)
    ensures i1 == i2 && Slug(s1) == Slug(s2)
  {
    DecodeIndexedKey(s1, i1);
    DecodeIndexedKey(s2, i2);
  }

  /** Entries keyed by their own position never share a key, whatever their text. */
  lemma IndexedKeysDistinct(items: seq<string>)
    ensures forall i, j :: 0 <= i < |items| && 0 <= j < |items| && i != j ==>
      IndexedKey(items[i], i) != IndexedKey(items[j], j)
  {
    forall i, j | 0 <= i < |items| && 0 <= j < |items| && IndexedKey(items[i], i) == IndexedKey(items[j], j)
      ensures i == j
    {
      IndexedKeyInjective(items[i], i, items[j], j);
    }
  }

  /** The experience timeline and the achievements list get pairwise distinct keys. */
  lemma AboutListKeysDistinct()
    ensures forall i, j :: 0 <= i < |ExperienceRoles| && 0 <= j < |ExperienceRoles| && i != j ==>
      IndexedKey(ExperienceRoles[i], i) != IndexedKey(ExperienceRoles[j], j)
    ensures forall i, j :: 0 <= i < |Achievements| && 0 <= j < |Achievements| && i != j ==>
      IndexedKey(Achievements[i], i) != IndexedKey(Achievements[j], j)
  {
    IndexedKeysDistinct(ExperienceRoles);
    IndexedKeysDistinct(Achievements);
  }

  /** The four service titles have four different slugs. */
  lemma ServiceKeysDistinct()
    ensures forall i, j :: 0 <= i < |ServiceTitles| && 0 <= j < |ServiceTitles| && i != j ==>
      Slug(ServiceTitles[i]) != Slug(ServiceTitles[j])
  {
    // the slugs have the titles' lengths, and the four lengths differ
    assert |ServiceTitles[0]| == 15 && |ServiceTitles[1]| == 14;
    assert |ServiceTitles[2]| == 24 && |ServiceTitles[3]| == 12;
  }

  /** A slug's length and first two characters: enough to tell the skills apart. */
  datatype Signature = Signature(length: nat, first: char, second: char)

  function SignatureOf(key: string): Signature {
    if |key| < 2 then Signature(|key|, ' ', ' ') else Signature(|key|, key[0], key[1])
  }

  /** The position in `Skills` of the skill whose slug has signature `g`, or -1. */
  function SkillPosition(g: Signature): int {
    match g
    case Signature(10, 't', 'y') => 0   // TypeScript
    case Signature(7, 'n', 'o') => 1    // Node.js
    case Signature(6, 'n', 'e') => 2    // NestJS
    case Signature(10, 'e', 'x') => 3   // Express.js
    case Signature(4, 'j', 'a') => 4    // Java
    case Signature(6, 'p', 'y') => 5    // Python
    case Signature(3, 'c', '-') => 6    // C++
    case Signature(20, 'm', 'o') => 7   // Modular Architecture
    case Signature(25, 'd', 'e') => 8   // Dependency Injection (DI)
    case Signature(13, 'm', 'i') => 9   // Microservices
    case Signature(33, 'o', 'b') => 10  // Object-Oriented Programming (OOP)
    case Signature(16, 's', 'o') => 11  // SOLID Principles
    case Signature(26, 'd', 'o') => 12  // Domain-Driven Design (DDD)
    case Signature(10, 'p', 'o') => 13  // PostgreSQL
    case Signature(5, 'm', 'y') => 14   // MySQL
    case Signature(7, 'm', 'o') => 15   // MongoDB
    case Signature(5, 'r', 'e') => 16   // Redis
    case Signature(6, 'p', 'r') => 17   // Prisma
    case Signature(7, 't', 'y') => 18   // TypeORM
    case Signature(8, 'm', 'o') => 19   // Mongoose
    case Signature(18, 'r', 'e') => 20  // RESTful API Design
    case Signature(10, 's', 't') => 21  // Stripe API
    case Signature(3, 'j', 'w') => 22   // JWT
    case Signature(11, 'p', 'a') => 23  // Passport.js
    case Signature(10, 'w', 'e') => 24  // WebSockets
    case Signature(7, 'p', 'o') => 25   // Postman
    case Signature(29, 't', 'e') => 26  // Test-Driven Development (TDD)
    case Signature(4, 'j', 'e') => 27   // Jest
    case Signature(12, 'u', 'n') => 28  // Unit Testing
    case Signature(19, 'i', 'n') => 29  // Integration Testing
    case Signature(14, 'e', 'r') => 30  // ER Diagramming
    case Signature(6, 'd', 'o') => 31   // Docker
    case Signature(7, 'a', 'w') => 32   // AWS EC2
    case Signature(6, 'a', 'w') => 33   // AWS S3
    case Signature(10, 'c', 'l') => 34  // Cloudinary
    case Signature(15, 'c', 'i') => 35  // CI/CD Pipelines
    case Signature(14, 'g', 'i') => 36  // GitHub Actions
    case Signature(6, 'v', 'e') => 37   // Vercel
    case Signature(3, 'g', 'i') => 38   // Git
    case _ => -1
  }

  /** From position `j` on, each item's slug is recognised as item `offset + j` of `Skills`. */
  predicate RecognisedFrom(items: seq<string>, offset: int, j: nat)
    decreases |items| - j
  {
    j >= |items| || (SkillPosition(SignatureOf(Slug(items[j]))) == offset + j && RecognisedFrom(items, offset, j + 1))
  }

  predicate Recognised(items: seq<string>, offset: int) {
    forall j :: 0 <= j < |items| ==> SkillPosition(SignatureOf(Slug(items[j]))) == offset + j
  }

  lemma {:induction false} RecognisedFromAll(items: seq<string>, offset: int, j: nat)
    requires RecognisedFrom(items, offset, j)
    ensures forall k :: j <= k < |items| ==> SkillPosition(SignatureOf(Slug(items[k]))) == offset + k
    decreases |items| - j
  {
    if j < |items| {
      RecognisedFromAll(items, offset, j + 1);
    }
  }

  lemma RecognisedAppend(a: seq<string>, b: seq<string>, offset: int)
    requires Recognised(a, offset) && Recognised(b, offset + |a|)
    ensures Recognised(a + b, offset)
  {
    forall j | 0 <= j < |a + b|
      ensures SkillPosition(SignatureOf(Slug((a + b)[j]))) == offset + j
    {
      if j >= |a| {
        assert (a + b)[j] == b[j - |a|];
      }
    }
  }

  /** Each group of skills is recognised at its offset in `Skills`. */
  lemma LanguagesAndFrameworksRecognised()
    ensures Recognised(LanguagesAndFrameworks, 0)
  {
    assert RecognisedFrom(LanguagesAndFrameworks, 0, 0);
    RecognisedFromAll(LanguagesAndFrameworks, 0, 0);
  }

  lemma BackendArchitectureRecognised()
    ensures Recognised(BackendArchitecture, 7)
  {
    assert RecognisedFrom(BackendArchitecture, 7, 3);
    assert RecognisedFrom(BackendArchitecture, 7, 0);
    RecognisedFromAll(BackendArchitecture, 7, 0);
  }

  lemma DataLayerRecognised()
    ensures Recognised(DataLayer, 13)
  {
    assert RecognisedFrom(DataLayer, 13, 0);
    RecognisedFromAll(DataLayer, 13, 0);
  }

  lemma ApiAndIntegrationRecognised()
    ensures Recognised(ApiAndIntegration, 20)
  {
    assert RecognisedFrom(ApiAndIntegration, 20, 0);
    RecognisedFromAll(ApiAndIntegration, 20, 0);
  }

  lemma ReliabilityAndTestingRecognised()
    ensures Recognised(ReliabilityAndTesting, 26)
  {
    assert RecognisedFrom(ReliabilityAndTesting, 26, 0);
    RecognisedFromAll(ReliabilityAndTesting, 26, 0);
  }

  lemma CloudAndDevOpsRecognised()
    ensures Recognised(CloudAndDevOps, 31)
  {
    assert RecognisedFrom(CloudAndDevOps, 31, 0);
    RecognisedFromAll(CloudAndDevOps, 31, 0);
  }

  /** Every skill's slug is recognised as its own position in the list. */
  lemma SkillsRecognised()
    ensures Recognised(Skills, 0)
  {
    LanguagesAndFrameworksRecognised();
    BackendArchitectureRecognised();
    DataLayerRecognised();
    ApiAndIntegrationRecognised();
    ReliabilityAndTestingRecognised();
    CloudAndDevOpsRecognised();
    var g1 := LanguagesAndFrameworks + BackendArchitecture;
    var g2 := g1 + DataLayer;
    var g3 := g2 + ApiAndIntegration;
    var g4 := g3 + ReliabilityAndTesting;
    RecognisedAppend(LanguagesAndFrameworks, BackendArchitecture, 0);
    RecognisedAppend(g1, DataLayer, 0);
    RecognisedAppend(g2, ApiAndIntegration, 0);
    RecognisedAppend(g3, ReliabilityAndTesting, 0);
    RecognisedAppend(g4, CloudAndDevOps, 0);
  }

  /** The skills have pairwise distinct slugs. */
  lemma SkillSlugsDistinct()
    ensures forall i, j :: 0 <= i < |Skills| && 0 <= j < |Skills| && i != j ==>
      Slug(Skills[i]) != Slug(Skills[j])
  {
    SkillsRecognised();
  }

  /** About keys every skill with index 0; the keys are still pairwise distinct. */
  lemma AboutSkillKeysDistinct()
    ensures forall i, j :: 0 <= i < |Skills| && 0 <= j < |Skills| && i != j ==>
      IndexedKey(Skills[i], 0) != IndexedKey(Skills[j], 0)
  {
    SkillSlugsDistinct();
    forall i, j | 0 <= i < |Skills| && 0 <= j < |Skills| && IndexedKey(Skills[i], 0) == IndexedKey(Skills[j], 0)
      ensures i == j
    {
      IndexedKeyInjective(Skills[i], 0, Skills[j], 0);
    }
  }

  /** Home keys every skill by its text; the texts are pairwise distinct. */
  lemma HomeSkillKeysDistinct()
    ensures forall i, j :: 0 <= i < |Skills| && 0 <= j < |Skills| && i != j ==> Skills[i] != Skills[j]
  {
    SkillSlugsDistinct();
  }
}
