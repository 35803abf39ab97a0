/** The tax-id (CUIT) utilities of src/services/cuit.ts, with the HTTP lookups as parameters. */
module Cuit {
  import opened Wrappers
  import opened Strings
  import opened Lists
  import opened Errors
  import opened Types

  const Multipliers: seq<int> := [5, 4, 3, 2, 7, 6, 5, 4, 3, 2]
  const CuitLength := 11
  const AlternativeApis: seq<string> := ["https://api.argentinadatos.com/v1/cuit/"]
  const SimilarityThreshold: real := 0.8

  // ---------------------------------------------------------------- digits

  predicate IsDigit(c: char) {
    '0' <= c <= '9'
  }

  predicate AllDigits(s: string) {
    forall i :: 0 <= i < |s| ==> IsDigit(s[i])
  }

  function DigitValue(c: char): (n: int)
    requires IsDigit(c)
    ensures 0 <= n <= 9
  {
    c as int - '0' as int
  }

  function DigitChar(n: int): (c: char)
    requires 0 <= n <= 9
    ensures IsDigit(c) && DigitValue(c) == n
  {
    ('0' as int + n) as char
  }

  /** `s.replace(/\D/g, '')`: the ASCII digits of `s`, in order. */
  function Digits(s: string): (r: string)
    ensures |r| <= |s|
    ensures AllDigits(r)
  {
    if s == [] then []
    else (if IsDigit(s[0]) then [s[0]] else []) + Digits(s[1..])
  }

  /** `Digits` keeps exactly the digit characters of `s`, each in its place in the original order. */
  lemma {:induction false} DigitsFilter(s: string)
    ensures Digits(s) == Filter(IsDigit, s)
    ensures forall i :: 0 <= i < |s| && IsDigit(s[i]) ==> s[i] in Digits(s)
    decreases |s|
  {
    if s != [] {
      assert s == [s[0]] + s[1..];
      FilterCons(IsDigit, s[0], s[1..]);
      DigitsFilter(s[1..]);
    }
  }

  lemma {:induction false} DigitsOfDigits(s: string)
    requires AllDigits(s)
    ensures Digits(s) == s
  {
    if s != [] {
      DigitsOfDigits(s[1..]);
    }
  }

  lemma {:induction false} DigitsAppend(a: string, b: string)
    ensures Digits(a + b) == Digits(a) + Digits(b)
  {
    if a == [] {
      assert a + b == b;
    } else {
      assert (a + b)[0] == a[0];
      assert (a + b)[1..] == a[1..] + b;
      DigitsAppend(a[1..], b);
      var h := if IsDigit(a[0]) then [a[0]] else [];
      assert Digits(a + b) == h + (Digits(a[1..]) + Digits(b));
      assert h + (Digits(a[1..]) + Digits(b)) == (h + Digits(a[1..])) + Digits(b);
    }
  }

  // ---------------------------------------------------------------- validateCUIT

  /** The sum of the first `n` digits weighted by the multipliers. */
  function WeightedSum(d: string, n: nat): int
    requires n <= |Multipliers| && n <= |d|
    requires forall i :: 0 <= i < n ==> IsDigit(d[i])
  {
    if n == 0 then 0 else WeightedSum(d, n - 1) + DigitValue(d[n - 1]) * Multipliers[n - 1]
  }

  lemma {:induction false} WeightedSumPrefix(d: string, e: string, n: nat)
    requires n <= |Multipliers| && n <= |d| && n <= |e| && d[..n] == e[..n]
    requires forall i :: 0 <= i < n ==> IsDigit(d[i])
    ensures forall i :: 0 <= i < n ==> IsDigit(e[i])
    ensures WeightedSum(d, n) == WeightedSum(e, n)
  {
    assert forall i :: 0 <= i < n ==> d[i] == d[..n][i] == e[..n][i] == e[i];
    if n > 0 {
      assert d[..n - 1] == d[..n][..n - 1];
      assert e[..n - 1] == e[..n][..n - 1];
      WeightedSumPrefix(d, e, n - 1);
    }
  }

  /** The check digit the code derives from the first ten digits: the remainder of the weighted sum
      modulo 11 when it is 0 or 1, otherwise 11 minus it. */
  function CheckDigit(d: string): (c: int)
    requires |d| >= 10 && forall i :: 0 <= i < 10 ==> IsDigit(d[i])
    ensures 0 <= c <= 9
  {
    var remainder := WeightedSum(d, 10) % 11;
    if remainder < 2 then remainder else 11 - remainder
  }

  /** `validateCUIT`: eleven digits once the non-digits are removed, the last equal to the check digit. */
  predicate IsValidCuit(s: string)
    ensures IsValidCuit(s) ==> |Digits(s)| == CuitLength
  {
    var clean := Digits(s);
    |clean| == CuitLength && CheckDigit(clean) == DigitValue(clean[10])
  }

  /** `validateCUIT`, with its summing loop. */
  method ValidateCUIT(cuit: string) returns (valid: bool)
    ensures valid == IsValidCuit(cuit)
  {
    var clean := Digits(cuit);
    if |clean| != CuitLength {
      return false;
    }
    var sum := 0;
    for i := 0 to 10
      invariant sum == WeightedSum(clean, i)
    {
      sum := sum + DigitValue(clean[i]) * Multipliers[i];
    }
    var remainder := sum % 11;
    var checkDigit := if remainder < 2 then remainder else 11 - remainder;
    valid := checkDigit == DigitValue(clean[10]);
  }

  /** Only the digits matter: validating the digits alone gives the same answer. */
  lemma ValidityIgnoresNonDigits(s: string)
    ensures IsValidCuit(Digits(s)) == IsValidCuit(s)
  {
    DigitsOfDigits(Digits(s));
  }

  /** Every ten-digit prefix has exactly one valid final digit: the check digit. */
  lemma UniqueCheckDigit(prefix: string)
    requires |prefix| == 10 && AllDigits(prefix)
    ensures forall c :: IsDigit(c) ==> (IsValidCuit(prefix + [c]) <==> DigitValue(c) == CheckDigit(prefix))
    ensures IsValidCuit(prefix + [DigitChar(CheckDigit(prefix))])
  {
    forall c | IsDigit(c) ensures IsValidCuit(prefix + [c]) <==> DigitValue(c) == CheckDigit(prefix) {
      var s := prefix + [c];
      assert AllDigits(s);
      DigitsOfDigits(s);
      assert s[..10] == prefix[..10];
      WeightedSumPrefix(s, prefix, 10);
    }
  }

  /** When the remainder is 1 the code takes 1 as the check digit, where the published AFIP rule
      has no valid digit (it would be 10): this eleven-digit string is accepted. */
  lemma RemainderOneAccepted()
    ensures WeightedSum("00060000001", 10) % 11 == 1
    ensures IsValidCuit("00060000001")
  {
    RemainderOneSum();
    RemainderOneDigits();
  }

  /** The example is all digits, so removing the non-digits keeps it whole. */
  lemma RemainderOneDigits()
    ensures Digits("00060000001") == "00060000001"
  {
    var s := "00060000001";
    assert AllDigits(s);
    DigitsOfDigits(s);
  }

  lemma RemainderOneSum()
    ensures WeightedSum("00060000001", 10) == 12
    ensures WeightedSum("00060000001", 10) % 11 == 1
  {
    var s := "00060000001";
    assert WeightedSum(s, 1) == 0;
    assert WeightedSum(s, 2) == 0;
    assert WeightedSum(s, 3) == 0;
    assert WeightedSum(s, 4) == 12;
    assert WeightedSum(s, 5) == 12;
    assert WeightedSum(s, 6) == 12;
    assert WeightedSum(s, 7) == 12;
    assert WeightedSum(s, 8) == 12;
    assert WeightedSum(s, 9) == 12;
  }

  // ---------------------------------------------------------------- formatCUIT

  /** `formatCUIT`: eleven digits become `DD-DDDDDDDD-D`; anything else is returned as given. */
  function FormatCUIT(cuit: string): (r: string)
    ensures |Digits(cuit)| == CuitLength ==>
      && |r| == 13 && r[2] == '-' && r[11] == '-'
      && (forall i :: 0 <= i < 13 && i != 2 && i != 11 ==> IsDigit(r[i]))
      && Digits(r) == Digits(cuit)
    ensures |Digits(cuit)| != CuitLength ==> r == cuit
  {
    var clean := Digits(cuit);
    if |clean| == CuitLength then
      var r := clean[..2] + "-" + clean[2..10] + "-" + clean[10..];
      DigitsAppend(clean[..2] + "-" + clean[2..10] + "-", clean[10..]);
      DigitsAppend(clean[..2] + "-" + clean[2..10], "-");
      DigitsAppend(clean[..2] + "-", clean[2..10]);
      DigitsAppend(clean[..2], "-");
      DigitsOfDigits(clean[..2]);
      DigitsOfDigits(clean[2..10]);
      DigitsOfDigits(clean[10..]);
      assert clean[..2] + clean[2..10] + clean[10..] == clean;
      r
    else cuit
  }

  /** Formatting does not change whether a CUIT is valid. */
  lemma FormatKeepsValidity(cuit: string)
    ensures IsValidCuit(FormatCUIT(cuit)) == IsValidCuit(cuit)
  {
  }

  /** Formatting an already formatted CUIT changes nothing. */
  lemma FormatIdempotent(cuit: string)
    ensures FormatCUIT(FormatCUIT(cuit)) == FormatCUIT(cuit)
  {
    var clean := Digits(cuit);
    if |clean| == CuitLength {
      var r := FormatCUIT(cuit);
      assert Digits(r) == clean;
    }
  }

  // ---------------------------------------------------------------- Levenshtein distance

  function Min3(x: int, y: int, z: int): (m: int)
    ensures m <= x && m <= y && m <= z
    ensures m == x || m == y || m == z
  {
    if x <= y && x <= z then x else if y <= z then y else z
  }

  /** The edit distance by its recursive definition: the fewest single-character insertions,
      deletions and substitutions that turn `a` into `b`. */
  function Dist(a: string, b: string): nat
    decreases |a| + |b|
  {
    if |a| == 0 then |b|
    else if |b| == 0 then |a|
    else
      var a' := a[..|a| - 1];
      var b' := b[..|b| - 1];
      Min3(Dist(a', b') + (if a[|a| - 1] == b[|b| - 1] then 0 else 1), Dist(a', b) + 1, Dist(a, b') + 1)
  }

  lemma {:induction false} DistSymmetric(a: string, b: string)
    ensures Dist(a, b) == Dist(b, a)
    decreases |a| + |b|
  {
    if |a| > 0 && |b| > 0 {
      var a', b' := a[..|a| - 1], b[..|b| - 1];
      DistSymmetric(a', b');
      DistSymmetric(a', b);
      DistSymmetric(a, b');
    }
  }

  lemma {:induction false} DistAtLeastLengthGap(a: string, b: string)
    ensures Dist(a, b) >= |a| - |b| && Dist(a, b) >= |b| - |a|
    decreases |a| + |b|
  {
    if |a| > 0 && |b| > 0 {
      var a', b' := a[..|a| - 1], b[..|b| - 1];
      DistAtLeastLengthGap(a', b');
      DistAtLeastLengthGap(a', b);
      DistAtLeastLengthGap(a, b');
    }
  }

  lemma {:induction false} DistAtMostLonger(a: string, b: string)
    ensures Dist(a, b) <= if |a| < |b| then |b| else |a|
    decreases |a| + |b|
  {
    if |a| > 0 && |b| > 0 {
      DistAtMostLonger(a[..|a| - 1], b[..|b| - 1]);
    }
  }

  /** Dropping the last character of the second string changes the distance by at most one. */
  lemma {:induction false} DistDropLastSecond(a: string, b: string)
    requires |b| > 0
    ensures Dist(a, b[..|b| - 1]) <= Dist(a, b) + 1
    decreases |a| + |b|
  {
    var b' := b[..|b| - 1];
    if |a| == 0 {
    } else if |b'| == 0 {
      DistAtLeastLengthGap(a, b);
    } else {
      var a' := a[..|a| - 1];
      DistDropLastSecond(a', b);
    }
  }

  lemma DistDropLastFirst(a: string, b: string)
    requires |a| > 0
    ensures Dist(a[..|a| - 1], b) <= Dist(a, b) + 1
  {
    DistDropLastSecond(b, a);
    DistSymmetric(a, b);
    DistSymmetric(a[..|a| - 1], b);
  }

  /** A common last character can be dropped: the step the table-filling loop takes without a `min`. */
  lemma DistEqualLast(a: string, b: string)
    requires |a| > 0 && |b| > 0 && a[|a| - 1] == b[|b| - 1]
    ensures Dist(a, b) == Dist(a[..|a| - 1], b[..|b| - 1])
  {
    DistDropLastSecond(a[..|a| - 1], b);
    DistDropLastFirst(a, b[..|b| - 1]);
  }

  lemma {:induction false} DistSelf(s: string)
    ensures Dist(s, s) == 0
    decreases |s|
  {
    if |s| > 0 {
      DistSelf(s[..|s| - 1]);
    }
  }

  lemma {:induction false} DistZeroOnlyForEqual(a: string, b: string)
    requires Dist(a, b) == 0
    ensures a == b
    decreases |a| + |b|
  {
    if |a| > 0 && |b| > 0 {
      var a', b' := a[..|a| - 1], b[..|b| - 1];
      DistZeroOnlyForEqual(a', b');
      assert a == a' + [a[|a| - 1]];
      assert b == b' + [b[|b| - 1]];
    }
  }

  /** The facts the similarity ratio relies on. */
  lemma DistanceFacts(a: string, b: string)
    ensures Dist(a, a) == 0 && Dist(a, []) == |a|
    ensures Dist(a, b) <= if |a| < |b| then |b| else |a|
    ensures Dist(a, b) == 0 <==> a == b
    ensures Dist(a, b) == Dist(b, a)
  {
    DistSelf(a);
    DistAtMostLonger(a, b);
    DistSymmetric(a, b);
    if Dist(a, b) == 0 {
      DistZeroOnlyForEqual(a, b);
    }
  }

  /** `levenshteinDistance`: fills the (|str2|+1) x (|str1|+1) table row by row; cell `[i, j]` holds
      the distance between the first `i` characters of `str2` and the first `j` of `str1`. */
  method LevenshteinDistance(str1: string, str2: string) returns (d: nat)
    ensures d == Dist(str1, str2)
  {
    var matrix := new int[|str2| + 1, |str1| + 1];
    for i := 0 to |str2| + 1
      invariant forall ii :: 0 <= ii < i ==> matrix[ii, 0] == ii
    {
      matrix[i, 0] := i;
    }
    for j := 0 to |str1| + 1
      invariant forall ii :: 0 <= ii <= |str2| ==> matrix[ii, 0] == ii
      invariant forall jj :: 0 <= jj < j ==> matrix[0, jj] == jj
    {
      matrix[0, j] := j;
    }
    assert forall jj :: 0 <= jj <= |str1| ==> matrix[0, jj] == Dist(str2[..0], str1[..jj]);
    for i := 1 to |str2| + 1
      invariant forall ii :: i <= ii <= |str2| ==> matrix[ii, 0] == ii
      invariant forall ii, jj :: 0 <= ii < i && 0 <= jj <= |str1| ==> matrix[ii, jj] == Dist(str2[..ii], str1[..jj])
    {
      FillRow(matrix, str1, str2, i);
    }
    assert str2[..|str2|] == str2 && str1[..|str1|] == str1;
    DistSymmetric(str1, str2);
    d := matrix[|str2|, |str1|];
  }

  /** One pass of the inner loop: row `i` of the table, from row `i - 1`; no other row changes. */
  method FillRow(matrix: array2<int>, str1: string, str2: string, i: int)
    requires matrix.Length0 == |str2| + 1 && matrix.Length1 == |str1| + 1 && 1 <= i <= |str2|
    requires matrix[i, 0] == i
    requires forall jj :: 0 <= jj <= |str1| ==> matrix[i - 1, jj] == Dist(str2[..i - 1], str1[..jj])
    modifies matrix
    ensures forall jj :: 0 <= jj <= |str1| ==> matrix[i, jj] == Dist(str2[..i], str1[..jj])
    ensures forall ii, jj :: 0 <= ii <= |str2| && ii != i && 0 <= jj <= |str1| ==> matrix[ii, jj] == old(matrix[ii, jj])
  {
    assert matrix[i, 0] == Dist(str2[..i], str1[..0]);
    for j := 1 to |str1| + 1
      invariant forall jj :: 0 <= jj < j ==> matrix[i, jj] == Dist(str2[..i], str1[..jj])
      invariant forall ii, jj :: 0 <= ii <= |str2| && ii != i && 0 <= jj <= |str1| ==> matrix[ii, jj] == old(matrix[ii, jj])
    {
      LevenshteinStep(str1, str2, i, j);
      if str2[i - 1] == str1[j - 1] {
        matrix[i, j] := matrix[i - 1, j - 1];
      } else {
        var diag, left, up := matrix[i - 1, j - 1], matrix[i, j - 1], matrix[i - 1, j];
        LeastIsMin3(Dist(str2[..i], str1[..j]), diag + 1, left + 1, up + 1);
        matrix[i, j] := Min3(diag + 1, left + 1, up + 1);
      }
    }
  }

  /** `d` is the least of three values, and one of them. */
  predicate IsLeastOf(d: int, x: int, y: int, z: int) {
    d <= x && d <= y && d <= z && (d == x || d == y || d == z)
  }

  lemma LeastIsMin3(d: int, x: int, y: int, z: int)
    requires IsLeastOf(d, x, y, z)
    ensures Min3(x, y, z) == d
  {
  }

  /** One cell of the table: the code's recurrence agrees with the definition. */
  lemma LevenshteinStep(str1: string, str2: string, i: int, j: int)
    requires 1 <= i <= |str2| && 1 <= j <= |str1|
    ensures var d := Dist(str2[..i], str1[..j]);
      var diag, left, up := Dist(str2[..i - 1], str1[..j - 1]), Dist(str2[..i], str1[..j - 1]), Dist(str2[..i - 1], str1[..j]);
      if str2[i - 1] == str1[j - 1] then d == diag else IsLeastOf(d, diag + 1, left + 1, up + 1)
  {
    var a, b := str2[..i], str1[..j];
    assert a[..|a| - 1] == str2[..i - 1] && b[..|b| - 1] == str1[..j - 1];
    assert a[|a| - 1] == str2[i - 1] && b[|b| - 1] == str1[j - 1];
    if str2[i - 1] == str1[j - 1] {
      DistEqualLast(a, b);
    } else {
      DistDifferentLast(a, b);
    }
  }

  lemma DistDifferentLast(a: string, b: string)
    requires |a| > 0 && |b| > 0 && a[|a| - 1] != b[|b| - 1]
    ensures IsLeastOf(Dist(a, b), Dist(a[..|a| - 1], b[..|b| - 1]) + 1, Dist(a, b[..|b| - 1]) + 1, Dist(a[..|a| - 1], b) + 1)
  {
  }

  // ---------------------------------------------------------------- calculateSimilarity

  /** `calculateSimilarity`: one minus the edit distance over the longer length (1 for two empty strings). */
  function Similarity(str1: string, str2: string): (r: real)
    ensures 0.0 <= r <= 1.0
    ensures r == 1.0 <==> str1 == str2
  {
    var longer := if |str1| > |str2| then str1 else str2;
    var shorter := if |str1| > |str2| then str2 else str1;
    if |longer| == 0 then 1.0
    else
      DistanceFacts(longer, shorter);
      assert longer != shorter ==> str1 != str2;
      RatioFacts(|longer| - Dist(longer, shorter), |longer|);
      (|longer| - Dist(longer, shorter)) as real / |longer| as real
  }

  lemma RatioFacts(x: int, y: int)
    requires 0 <= x <= y && y > 0
    ensures 0.0 <= x as real / y as real <= 1.0
    ensures x as real / y as real == 1.0 <==> x == y
  {
    var q := x as real / y as real;
    assert q * y as real == x as real;
  }

  method CalculateSimilarity(str1: string, str2: string) returns (r: real)
    ensures r == Similarity(str1, str2)
  {
    var longer := if |str1| > |str2| then str1 else str2;
    var shorter := if |str1| > |str2| then str2 else str1;
    if |longer| == 0 {
      return 1.0;
    }
    var editDistance := LevenshteinDistance(longer, shorter);
    r := (|longer| - editDistance) as real / |longer| as real;
  }

  // ---------------------------------------------------------------- cleanBusinessName

  /** `cleanBusinessName`; `stripSuffixes` is the removal of company-type suffixes (`S.A.`, `SRL`, ...),
      done by a word-boundary regular expression that the model takes as given. */
  function CleanBusinessName(name: string, stripSuffixes: string -> string): (r: string)
    ensures NoSpaceAtEnds(r) && NoDoubleSpace(r) && OnlyPlainSpaces(r)
    ensures RemoveSpaces(r) == RemoveSpaces(stripSuffixes(name))
    ensures r == Join(Words(stripSuffixes(name)), " ")
  {
    var stripped := stripSuffixes(name);
    NormalizeKeepsText(stripped);
    NormalizeSpacesWords(stripped);
    NormalizeSpaces(stripped)
  }

  // ---------------------------------------------------------------- lookups

  /** One item of a name search response. */
  datatype SearchItem = SearchItem(razonSocial: Option<string>, cuit: Option<string>)

  /** The HTTP calls: `fetch(url)` is the `razonSocial` of the response to `GET url` (or how it
      failed); `search(url, q)` is the array returned by `GET url?q=...` (empty when the body is
      not an array or is empty). */
  datatype Lookups = Lookups(
    fetch: string -> Completion<Option<string>>,
    search: (string, string) -> Completion<seq<SearchItem>>,
    stripSuffixes: string -> string)

  /** The API at `url` answered with a legal name that is present and not empty. */
  predicate NameAnswer(fetch: string -> Completion<Option<string>>, url: string) {
    fetch(url).Returned? && Truthy(fetch(url).value)
  }

  /** One turn of the loop over the APIs: the name the API at `api` gives for `clean`, if any. */
  function ApiName(api: string, clean: string, fetch: string -> Completion<Option<string>>): (r: Option<string>)
    ensures r.Some? <==> NameAnswer(fetch, api + clean)
    ensures r.Some? ==> fetch(api + clean) == Returned(r)
  {
    match fetch(api + clean)
    case Threw(_) => None
    case Returned(razonSocial) => if Truthy(razonSocial) then razonSocial else None
  }

  /** The API at index `k` is the first that answers, and it answers `r`. */
  predicate AnsweredFirstBy(fetch: string -> Completion<Option<string>>, apis: seq<string>, clean: string, k: int, r: Option<string>) {
    && 0 <= k < |apis|
    && fetch(apis[k] + clean) == Returned(r)
    && forall j :: 0 <= j < k ==> !NameAnswer(fetch, apis[j] + clean)
  }

  function NameLookup(clean: string, fetch: string -> Completion<Option<string>>): string -> Option<string> {
    api => ApiName(api, clean, fetch)
  }

  /** The alternative APIs tried in order for a clean CUIT: the name the first answering API gives,
      and null when none answers (the AFIP scraping fallback always gives null). */
  function RazonSocialFromApis(clean: string, fetch: string -> Completion<Option<string>>, apis: seq<string>): (r: Option<string>)
    ensures r.None? <==> forall k :: 0 <= k < |apis| ==> !NameAnswer(fetch, apis[k] + clean)
    ensures r.Some? ==> Truthy(r) && exists k :: AnsweredFirstBy(fetch, apis, clean, k, r)
  {
    var y := NameLookup(clean, fetch);
    assert forall k :: 0 <= k < |apis| ==> y(apis[k]) == ApiName(apis[k], clean, fetch);
    var r := FirstSome(y, apis);
    if r.Some? then
      var k :| 0 <= k < |apis| && y(apis[k]) == r && forall j :: 0 <= j < k ==> y(apis[j]).None?;
      assert AnsweredFirstBy(fetch, apis, clean, k, r);
      r
    else r
  }

  /** What `getRazonSocialFromCUIT` resolves to: null for a CUIT without 11 digits, otherwise the
      name of the first API that answers for the digits, and null when none does. */
  function RazonSocialLookup(cuit: string, fetch: string -> Completion<Option<string>>): (r: Option<string>)
    ensures |Digits(cuit)| != CuitLength ==> r == None
    ensures |Digits(cuit)| == CuitLength ==>
      (r.None? <==> forall k :: 0 <= k < |AlternativeApis| ==> !NameAnswer(fetch, AlternativeApis[k] + Digits(cuit)))
    ensures r.Some? ==> Truthy(r) && exists k :: AnsweredFirstBy(fetch, AlternativeApis, Digits(cuit), k, r)
  {
    var clean := Digits(cuit);
    if |clean| != CuitLength then None else RazonSocialFromApis(clean, fetch, AlternativeApis)
  }

  /** The length guard runs before any request: for a malformed CUIT the answer is the same whatever
      the APIs would return. */
  lemma MalformedCuitMakesNoRequest(cuit: string, fetch1: string -> Completion<Option<string>>, fetch2: string -> Completion<Option<string>>)
    requires |Digits(cuit)| != CuitLength
    ensures RazonSocialLookup(cuit, fetch1) == RazonSocialLookup(cuit, fetch2) == None
  {
  }

  /** `getRazonSocialFromCUIT`: the guard, then the loop over the APIs that skips failures. */
  method GetRazonSocialFromCUIT(cuit: string, fetch: string -> Completion<Option<string>>) returns (r: Option<string>)
    ensures r == RazonSocialLookup(cuit, fetch)
  {
    var cleanCUIT := Digits(cuit);
    if |cleanCUIT| != CuitLength {
      return None;
    }
    var y := NameLookup(cleanCUIT, fetch);
    var k := 0;
    while k < |AlternativeApis|
      invariant 0 <= k <= |AlternativeApis|
      invariant RazonSocialLookup(cuit, fetch) == FirstSome(y, AlternativeApis[k..])
    {
      var apiUrl := AlternativeApis[k];
      FirstSomeStep(y, AlternativeApis, k);
      assert y(apiUrl) == ApiName(apiUrl, cleanCUIT, fetch);
      match fetch(apiUrl + cleanCUIT) {
        case Threw(_) =>
        case Returned(razonSocial) =>
          if Truthy(razonSocial) {
            return razonSocial;
          }
      }
      k := k + 1;
    }
    r := None;
  }

  /** The `find` predicate: a legal name that is present and more than 80% similar to the query. */
  predicate IsCloseMatch(item: SearchItem, razonSocial: string) {
    Truthy(item.razonSocial) && Similarity(item.razonSocial.value, razonSocial) > SimilarityThreshold
  }

  function CloseTo(razonSocial: string): SearchItem -> bool {
    item => IsCloseMatch(item, razonSocial)
  }

  /** A response that holds a close match. */
  predicate HasCloseMatch(response: Completion<seq<SearchItem>>, razonSocial: string) {
    response.Returned? && exists i :: 0 <= i < |response.value| && IsCloseMatch(response.value[i], razonSocial)
  }

  /** The `cuit` of the first close match (`undefined` when that item has none). */
  function FirstCloseCuit(items: seq<SearchItem>, razonSocial: string): (r: Option<string>)
    requires exists i :: 0 <= i < |items| && IsCloseMatch(items[i], razonSocial)
    ensures exists i :: (0 <= i < |items| && IsCloseMatch(items[i], razonSocial) && items[i].cuit == r
      && forall j :: 0 <= j < i ==> !IsCloseMatch(items[j], razonSocial))
  {
    var i := FindIndex(items, CloseTo(razonSocial));
    assert forall j :: 0 <= j < |items| ==> CloseTo(razonSocial)(items[j]) == IsCloseMatch(items[j], razonSocial);
    items[i].cuit
  }

  /** The response of the API at `api` to the name search. */
  function SearchResponse(api: string, razonSocial: string, search: (string, string) -> Completion<seq<SearchItem>>)
    : Completion<seq<SearchItem>> {
    search(api + "search", razonSocial)
  }

  /** One turn of the loop over the APIs: `Some(cuit)` when the API's answer has a close match. */
  function ApiCuit(api: string, razonSocial: string, search: (string, string) -> Completion<seq<SearchItem>>)
    : (r: Option<Option<string>>)
    ensures r.Some? <==> HasCloseMatch(SearchResponse(api, razonSocial, search), razonSocial)
    ensures r.Some? ==> r.value == FirstCloseCuit(SearchResponse(api, razonSocial, search).value, razonSocial)
  {
    match search(api + "search", razonSocial)
    case Threw(_) => None
    case Returned(items) =>
      var i := FindIndex(items, CloseTo(razonSocial));
      assert forall j :: 0 <= j < |items| ==> CloseTo(razonSocial)(items[j]) == IsCloseMatch(items[j], razonSocial);
      if |items| > 0 && i >= 0 then Some(items[i].cuit) else None
  }

  function CuitSearch(razonSocial: string, search: (string, string) -> Completion<seq<SearchItem>>)
    : string -> Option<Option<string>> {
    api => ApiCuit(api, razonSocial, search)
  }

  /** The API at index `k` is the first whose answer has a close match. */
  predicate FirstMatchingApi(apis: seq<string>, razonSocial: string, search: (string, string) -> Completion<seq<SearchItem>>, k: int) {
    && 0 <= k < |apis|
    && HasCloseMatch(SearchResponse(apis[k], razonSocial, search), razonSocial)
    && forall j :: 0 <= j < k ==> !HasCloseMatch(SearchResponse(apis[j], razonSocial, search), razonSocial)
  }

  /** The `cuit` of the first close match in the answer of the first API that has one; null when
      no API's answer has a close match. */
  function CuitFromApis(razonSocial: string, search: (string, string) -> Completion<seq<SearchItem>>, apis: seq<string>): (r: Option<string>)
    ensures (forall k :: 0 <= k < |apis| ==> !HasCloseMatch(SearchResponse(apis[k], razonSocial, search), razonSocial)) ==> r == None
    ensures forall k :: FirstMatchingApi(apis, razonSocial, search, k) ==>
      r == FirstCloseCuit(SearchResponse(apis[k], razonSocial, search).value, razonSocial)
  {
    var y := CuitSearch(razonSocial, search);
    assert forall k :: 0 <= k < |apis| ==> y(apis[k]) == ApiCuit(apis[k], razonSocial, search);
    var found := FirstSome(y, apis);
    forall k | FirstMatchingApi(apis, razonSocial, search, k)
      ensures found == y(apis[k])
    {
      assert y(apis[k]).Some?;
      var m :| 0 <= m < |apis| && y(apis[m]) == found && forall j :: 0 <= j < m ==> y(apis[j]).None?;
      assert !(m < k) && !(k < m);
    }
    if found.Some? then found.value else None
  }

  /** What `getCUITFromRazonSocial` resolves to, over the configured APIs. */
  function CuitLookup(razonSocial: string, search: (string, string) -> Completion<seq<SearchItem>>): (r: Option<string>)
    ensures (forall k :: 0 <= k < |AlternativeApis| ==> !HasCloseMatch(SearchResponse(AlternativeApis[k], razonSocial, search), razonSocial)) ==> r == None
    ensures forall k :: FirstMatchingApi(AlternativeApis, razonSocial, search, k) ==>
      r == FirstCloseCuit(SearchResponse(AlternativeApis[k], razonSocial, search).value, razonSocial)
  {
    CuitFromApis(razonSocial, search, AlternativeApis)
  }

  /** `getCUITFromRazonSocial`, with its loop over the APIs. */
  method GetCUITFromRazonSocial(razonSocial: string, search: (string, string) -> Completion<seq<SearchItem>>) returns (r: Option<string>)
    ensures r == CuitLookup(razonSocial, search)
  {
    var y := CuitSearch(razonSocial, search);
    var k := 0;
    while k < |AlternativeApis|
      invariant 0 <= k <= |AlternativeApis|
      invariant var found := FirstSome(y, AlternativeApis[k..]);
        CuitLookup(razonSocial, search) == if found.Some? then found.value else None
    {
      var apiUrl := AlternativeApis[k];
      FirstSomeStep(y, AlternativeApis, k);
      assert y(apiUrl) == ApiCuit(apiUrl, razonSocial, search);
      match search(apiUrl + "search", razonSocial) {
        case Threw(_) =>
        case Returned(items) =>
          if |items| > 0 {
            var i := FindIndex(items, CloseTo(razonSocial));
            if i >= 0 {
              return items[i].cuit;
            }
          }
      }
      k := k + 1;
    }
    r := None;
  }

  /** The five names tried, in order. */
  function SearchTerms(businessName: string, cleanName: string): (terms: seq<string>)
    ensures |terms| == 5
    ensures terms[0] == cleanName && terms[1] == businessName
    ensures terms[2] == cleanName + " SA" && terms[3] == cleanName + " SRL" && terms[4] == cleanName + " SAS"
  {
    [cleanName, businessName, cleanName + " SA", cleanName + " SRL", cleanName + " SAS"]
  }

  /** The record a term yields: the CUIT found for it, with the term as the legal name. */
  function TermInfo(term: string, search: (string, string) -> Completion<seq<SearchItem>>): (r: Option<CUITInfo>)
    ensures r.Some? <==> Truthy(CuitLookup(term, search))
    ensures r.Some? ==> r.value.cuit != "" && Some(r.value.cuit) == CuitLookup(term, search) && r.value.razonSocial == term
  {
    var result := CuitLookup(term, search);
    if Truthy(result) then Some(CUITInfo(result.value, term)) else None
  }

  function TermLookup(search: (string, string) -> Completion<seq<SearchItem>>): string -> Option<CUITInfo> {
    term => TermInfo(term, search)
  }

  /** What `searchByBusinessName` resolves to. */
  function BusinessNameLookup(businessName: string, lookups: Lookups): Option<CUITInfo> {
    var terms := SearchTerms(businessName, CleanBusinessName(businessName, lookups.stripSuffixes));
    FirstSome(TermLookup(lookups.search), terms)
  }

  /** The terms are tried in the fixed order and the first one whose lookup gives a CUIT is reported,
      with that term as the legal name. */
  lemma BusinessNameTermOrder(businessName: string, lookups: Lookups)
    ensures var terms := SearchTerms(businessName, CleanBusinessName(businessName, lookups.stripSuffixes));
      var r := BusinessNameLookup(businessName, lookups);
      && (r.None? <==> forall k :: 0 <= k < 5 ==> TermInfo(terms[k], lookups.search).None?)
      && (r.Some? ==> exists k :: (0 <= k < 5 && r == TermInfo(terms[k], lookups.search)
            && forall j :: 0 <= j < k ==> TermInfo(terms[j], lookups.search).None?))
  {
    var terms := SearchTerms(businessName, CleanBusinessName(businessName, lookups.stripSuffixes));
    var y := TermLookup(lookups.search);
    assert forall k :: 0 <= k < 5 ==> y(terms[k]) == TermInfo(terms[k], lookups.search);
  }

  /** One turn of the loop over the terms: a truthy lookup result for `terms[k]` is the answer,
      otherwise the search goes on with the next term. */
  lemma TermStep(terms: seq<string>, k: int, search: (string, string) -> Completion<seq<SearchItem>>, result: Option<string>)
    requires 0 <= k < |terms| && result == CuitLookup(terms[k], search)
    ensures Truthy(result) ==> FirstSome(TermLookup(search), terms[k..]) == Some(CUITInfo(result.value, terms[k]))
    ensures !Truthy(result) ==> FirstSome(TermLookup(search), terms[k..]) == FirstSome(TermLookup(search), terms[k + 1..])
  {
    FirstSomeStep(TermLookup(search), terms, k);
    assert TermLookup(search)(terms[k]) == TermInfo(terms[k], search);
  }

  /** `searchByBusinessName`: the clean name, the five terms, then the loop over them. */
  method SearchByBusinessName(businessName: string, lookups: Lookups) returns (r: Option<CUITInfo>)
    ensures r == BusinessNameLookup(businessName, lookups)
  {
    var cleanName := CleanBusinessName(businessName, lookups.stripSuffixes);
    var searchTerms := SearchTerms(businessName, cleanName);
    r := FirstTermWithCuit(searchTerms, lookups.search);
  }

  /** The loop of `searchByBusinessName`: returns at the first term whose lookup gives a CUIT. */
  method FirstTermWithCuit(searchTerms: seq<string>, search: (string, string) -> Completion<seq<SearchItem>>)
    returns (r: Option<CUITInfo>)
    ensures r == FirstSome(TermLookup(search), searchTerms)
  {
    ghost var y := TermLookup(search);
    assert searchTerms[0..] == searchTerms;
    var k := 0;
    while k < |searchTerms|
      invariant 0 <= k <= |searchTerms|
      invariant FirstSome(y, searchTerms) == FirstSome(y, searchTerms[k..])
    {
      var term := searchTerms[k];
      var result := GetCUITFromRazonSocial(term, search);
      TermStep(searchTerms, k, search, result);
      if Truthy(result) {
        return Some(CUITInfo(result.value, term));
      }
      k := k + 1;
    }
    assert searchTerms[k..] == [];
    r := None;
  }

  // ---------------------------------------------------------------- enrichCUITData

  /** The first branch of `enrichCUITData` applies: a CUIT, no legal name, and the lookup finds one. */
  predicate FillsName(company: Company, lookups: Lookups) {
    Truthy(company.cuit) && !Truthy(company.razonSocial) && Truthy(RazonSocialLookup(company.cuit.value, lookups.fetch))
  }

  /** The second branch: a legal name, no CUIT, and the lookup finds one. */
  predicate FillsCuit(company: Company, lookups: Lookups) {
    Truthy(company.razonSocial) && !Truthy(company.cuit) && Truthy(CuitLookup(company.razonSocial.value, lookups.search))
  }

  /** The third branch: neither, and the search by business name finds a record. */
  predicate FillsBoth(company: Company, lookups: Lookups) {
    !Truthy(company.cuit) && !Truthy(company.razonSocial) && BusinessNameLookup(company.name, lookups).Some?
  }

  /** `enrichCUITData`: with a CUIT but no legal name, look the name up; with a legal name but no CUIT,
      look the CUIT up; with neither, search by the business name; otherwise, or when nothing is
      found, the company as it was. */
  function EnrichCUITData(company: Company, lookups: Lookups): (r: Company)
    ensures FillsName(company, lookups) ==>
      r == company.(razonSocial := RazonSocialLookup(company.cuit.value, lookups.fetch))
    ensures FillsCuit(company, lookups) ==>
      r == company.(cuit := CuitLookup(company.razonSocial.value, lookups.search))
    ensures FillsBoth(company, lookups) ==>
      var info := BusinessNameLookup(company.name, lookups).value;
      info.cuit != "" && r == company.(cuit := Some(info.cuit), razonSocial := Some(info.razonSocial))
    ensures !FillsName(company, lookups) && !FillsCuit(company, lookups) && !FillsBoth(company, lookups) ==> r == company
    ensures r.name == company.name && r.location == company.location && r.rowNumber == company.rowNumber
    ensures Truthy(company.cuit) && Truthy(company.razonSocial) ==> r == company
    ensures r.cuit == company.cuit || (!Truthy(company.cuit) && Truthy(r.cuit))
    ensures r.razonSocial == company.razonSocial || (!Truthy(company.razonSocial) && r.razonSocial.Some?)
  {
    if FillsName(company, lookups) then
      company.(razonSocial := RazonSocialLookup(company.cuit.value, lookups.fetch))
    else if FillsCuit(company, lookups) then
      company.(cuit := CuitLookup(company.razonSocial.value, lookups.search))
    else if FillsBoth(company, lookups) then
      var info := BusinessNameLookup(company.name, lookups).value;
      BusinessNameFound(company.name, lookups);
      company.(cuit := Some(info.cuit), razonSocial := Some(info.razonSocial))
    else company
  }

  /** A search by name only reports a non-empty CUIT. */
  lemma BusinessNameFound(businessName: string, lookups: Lookups)
    requires BusinessNameLookup(businessName, lookups).Some?
    ensures BusinessNameLookup(businessName, lookups).value.cuit != ""
  {
    BusinessNameTermOrder(businessName, lookups);
  }
}
