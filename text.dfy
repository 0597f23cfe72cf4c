/**
 * The verification-code extractor of core/utils/text.py.
 *
 * `ExtractVerificationCode` tries four regular expressions in their listed
 * order with `re.search` and returns group 1 of the first one that matches.
 * Each expression is written out as a matcher that gives the same answer as
 * Python's backtracking engine: `MatchAt(p, t, i)` is the outcome of trying
 * pattern `p` at position `i`, `Search` is the leftmost such outcome.
 *
 * Character classes: `[0-9]` is an ASCII digit; `\d`/`\D` use Unicode decimal
 * digits (`IsDecimal`); `\s` is `IsSpace`; `\b` is a change of `IsWordChar`.
 */
module Text {
  import opened Wrappers
  import opened PyValues

  /** Where group 1 matched: `len` characters of the text from `start`. */
  datatype Hit = Hit(start: nat, len: nat)

  /** A verification code as the extractor returns it: 4 to 8 ASCII digits. */
  predicate IsCode(c: string) {
    4 <= |c| <= 8 && AllAsciiDigits(c)
  }

  predicate AllAsciiDigits(s: string) {
    forall i | 0 <= i < |s| :: IsAsciiDigit(s[i])
  }

  predicate IsCodeAt(t: string, h: Hit) {
    h.start + h.len <= |t| && IsCode(t[h.start..h.start + h.len])
  }

  // ---------------------------------------------------------------- runs and literals

  /** The number of ASCII digits (`[0-9]`) from position `i` on. */
  function DigitRun(t: string, i: nat): (n: nat)
    requires i <= |t|
    ensures i + n <= |t|
    decreases |t| - i
  {
    if i < |t| && IsAsciiDigit(t[i]) then 1 + DigitRun(t, i + 1) else 0
  }

  /** The run is maximal: digits all along, and no digit right after it. */
  lemma {:induction false} DigitRunMaximal(t: string, i: nat)
    requires i <= |t|
    ensures forall j | i <= j < i + DigitRun(t, i) :: IsAsciiDigit(t[j])
    ensures i + DigitRun(t, i) == |t| || !IsAsciiDigit(t[i + DigitRun(t, i)])
    decreases |t| - i
  {
    if i < |t| && IsAsciiDigit(t[i]) {
      DigitRunMaximal(t, i + 1);
    }
  }

  /** The number of non-decimal characters (`\D`) from position `i` on. */
  function NonDigitRun(t: string, i: nat): (n: nat)
    requires i <= |t|
    ensures i + n <= |t|
    decreases |t| - i
  {
    if i < |t| && !IsDecimal(t[i]) then 1 + NonDigitRun(t, i + 1) else 0
  }

  /** The run is maximal: no decimal digit along it, and one right after it unless the text ends. */
  lemma {:induction false} NonDigitRunMaximal(t: string, i: nat)
    requires i <= |t|
    ensures forall j | i <= j < i + NonDigitRun(t, i) :: !IsDecimal(t[j])
    ensures i + NonDigitRun(t, i) == |t| || IsDecimal(t[i + NonDigitRun(t, i)])
    decreases |t| - i
  {
    if i < |t| && !IsDecimal(t[i]) {
      NonDigitRunMaximal(t, i + 1);
    }
  }

  /** The digit run is determined by where the digits stop. */
  lemma {:induction false} DigitRunIs(t: string, i: nat, n: nat)
    requires i + n <= |t|
    requires forall j | i <= j < i + n :: IsAsciiDigit(t[j])
    requires i + n == |t| || !IsAsciiDigit(t[i + n])
    ensures DigitRun(t, i) == n
    decreases n
  {
    if n > 0 {
      DigitRunIs(t, i + 1, n - 1);
    }
  }

  /** The non-digit run is determined by where the first decimal digit is. */
  lemma {:induction false} NonDigitRunIs(t: string, i: nat, n: nat)
    requires i + n <= |t|
    requires forall j | i <= j < i + n :: !IsDecimal(t[j])
    requires i + n == |t| || IsDecimal(t[i + n])
    ensures NonDigitRun(t, i) == n
    decreases n
  {
    if n > 0 {
      NonDigitRunIs(t, i + 1, n - 1);
    }
  }

  /** The number of whitespace characters (`\s`) from position `i` on. */
  function SpaceRun(t: string, i: nat): (n: nat)
    requires i <= |t|
    ensures i + n <= |t|
    ensures i + n == |t| || !IsSpace(t[i + n])
    decreases |t| - i
  {
    if i < |t| && IsSpace(t[i]) then 1 + SpaceRun(t, i + 1) else 0
  }

  /** The literal `w` occurs in `t` at position `i`. */
  predicate LiteralAt(t: string, i: nat, w: string)
    ensures LiteralAt(t, i, w) && w != [] ==> i + |w| <= |t|
    decreases |w|
  {
    w == [] || (i < |t| && t[i] == w[0] && LiteralAt(t, i + 1, w[1..]))
  }

  /**
   * Character `c` matches the pattern letter `w` under `(?i)`: the ASCII
   * upper case, and the three non-ASCII letters Python's `re` folds onto
   * ASCII ones (U+0130 and U+0131 onto i, U+017F onto s, U+212A onto k).
   */
  predicate FoldsTo(c: char, w: char) {
    c == w ||
    ('a' <= w <= 'z' && c as int == w as int - 32) ||
    (w == 'i' && (c == '\U{0130}' || c == '\U{0131}')) ||
    (w == 's' && c == '\U{017F}') ||
    (w == 'k' && c == '\U{212A}')
  }

  /** The lower-case literal `w` occurs at position `i` under `(?i)`. */
  predicate LiteralAtIgnoreCase(t: string, i: nat, w: string)
    decreases |w|
  {
    w == [] || (i < |t| && FoldsTo(t[i], w[0]) && LiteralAtIgnoreCase(t, i + 1, w[1..]))
  }

  /** `\b` at position `i`: exactly one side of `i` is a word character. */
  predicate WordBoundaryAt(t: string, i: nat)
    requires i <= |t|
  {
    (i > 0 && IsWordChar(t[i - 1])) != (i < |t| && IsWordChar(t[i]))
  }

  /**
   * `\D*([0-9]{4,8})` tried from position `q`. `\D*` first takes every
   * non-decimal character; giving any back leaves a non-digit where the group
   * must start, so the only candidate start is the end of that run, and the
   * group then takes up to 8 of the digits found there.
   */
  function CodeAfter(t: string, q: nat): (r: Option<Hit>)
    requires q <= |t|
    ensures r.Some? ==> IsCodeAt(t, r.value) && q <= r.value.start
  {
    var start := q + NonDigitRun(t, q);
    var n := DigitRun(t, start);
    DigitRunMaximal(t, start);
    if n >= 4 then Some(Hit(start, Min(n, 8))) else None
  }

  // ---------------------------------------------------------------- the four patterns

  datatype Pattern =
    | KeywordFirstZh  // (?:(?:您的?)?(?:短信|手机|动态|本次|登录)?验证码|验证密码|短信随机码)\D*([0-9]{4,8})
    | DigitsFirstZh   // ([0-9]{4,8})\D{0,20}(?:登录|短信|手机|动态|一次性|本次|您的?)?验证码
    | KeywordFirstEn  // (?i)\b(?:verification\s*code|code|otp|verification)\b\D*([0-9]{4,8})
    | DigitsFirstEn   // (?i)([0-9]{4,8})\D{0,40}(?:is\s*your\s*(?:verification\s*code|otp|code))

  /** The `candidate_patterns` list, in the order the extractor tries it. */
  const CandidatePatterns: seq<Pattern> := [KeywordFirstZh, DigitsFirstZh, KeywordFirstEn, DigitsFirstEn]

  /** The optional `(?:您的?)?` of pattern 1, choices in the order backtracking tries them. */
  const ZhPrefixes: seq<string> := ["您的", "您", ""]

  /** The optional `(?:短信|手机|动态|本次|登录)?` of pattern 1, choices in order. */
  const ZhChannels: seq<string> := ["短信", "手机", "动态", "本次", "登录", ""]

  /**
   * Every string the keyword group of pattern 1 can match, in the order
   * backtracking tries them: prefix, channel and 验证码 for each prefix in
   * turn, then the alternatives 验证密码 and 短信随机码.
   */
  const ZhKeywords: seq<string> :=
    seq(18, k requires 0 <= k < 18 => ZhPrefixes[k / 6] + ZhChannels[k % 6] + "验证码") + ["验证密码", "短信随机码"]

  /** The optional `(?:登录|短信|手机|动态|一次性|本次|您的?)?` before 验证码 in pattern 2, choices in order. */
  const ZhTailPrefixes: seq<string> := ["登录", "短信", "手机", "动态", "一次性", "本次", "您的", "您", ""]

  /** Every string the tail of pattern 2 can match. */
  const ZhSuffixes: seq<string> := seq(9, k requires 0 <= k < 9 => ZhTailPrefixes[k] + "验证码")

  /**
   * Where the keyword group of the first pattern ends when it matches at `p`.
   * Each optional part is taken when it is there: giving it back leaves its
   * first character where the next part must start, and no later part begins
   * with 您, 的 or the first character of a channel word. No keyword is a
   * prefix of another, so at most one occurs at `p` (`KeywordEndZhComplete`).
   */
  function KeywordEndZh(t: string, p: nat): (r: Option<nat>)
    ensures r.Some? ==> p < r.value <= |t|
  {
    var a := if LiteralAt(t, p, "您的") then p + 2 else if LiteralAt(t, p, "您") then p + 1 else p;
    var b := if LiteralAt(t, a, "短信") || LiteralAt(t, a, "手机") || LiteralAt(t, a, "动态")
                || LiteralAt(t, a, "本次") || LiteralAt(t, a, "登录") then a + 2 else a;
    if LiteralAt(t, b, "验证码") then Some(b + 3)
    else if LiteralAt(t, p, "验证密码") then Some(p + 4)
    else if LiteralAt(t, p, "短信随机码") then Some(p + 5)
    else None
  }

  /**
   * Pattern 1 at `p`. The keyword group matches in at most one way, so when
   * `\D*([0-9]{4,8})` fails after it there is nothing left to try at `p`.
   */
  function KeywordFirstZhAt(t: string, p: nat): (r: Option<Hit>)
    requires p <= |t|
    ensures r.Some? ==> IsCodeAt(t, r.value) && p < r.value.start
  {
    match KeywordEndZh(t, p)
    case None => None
    case Some(e) => CodeAfter(t, e)
  }

  /** The tail `(?:登录|短信|手机|动态|一次性|本次|您的?)?验证码` of pattern 2 at `i`, taking each optional part when it is there. */
  predicate SuffixZhAt(t: string, i: nat) {
    var b := if LiteralAt(t, i, "登录") || LiteralAt(t, i, "短信") || LiteralAt(t, i, "手机")
                || LiteralAt(t, i, "动态") || LiteralAt(t, i, "本次") || LiteralAt(t, i, "您的") then i + 2
             else if LiteralAt(t, i, "一次性") then i + 3
             else if LiteralAt(t, i, "您") then i + 1
             else i;
    LiteralAt(t, b, "验证码")
  }

  /** The tail of pattern 2 starts within the first `m` + 1 positions from `s`. */
  predicate SuffixZhWithin(t: string, s: nat, m: nat)
    decreases m
  {
    SuffixZhAt(t, s + m) || (m > 0 && SuffixZhWithin(t, s, m - 1))
  }

  /**
   * Pattern 2 at `p`: group 1 takes the ASCII digits there. With more than 8
   * of them, the character after any choice of group is a digit, which neither
   * `\D{0,20}` nor the keyword can start with, so there is no match at `p`.
   */
  function DigitsFirstZhAt(t: string, p: nat): (r: Option<Hit>)
    requires p <= |t|
    ensures r.Some? ==> IsCodeAt(t, r.value) && r.value.start == p
  {
    var n := DigitRun(t, p);
    DigitRunMaximal(t, p);
    if 4 <= n <= 8 && SuffixZhWithin(t, p + n, Min(20, NonDigitRun(t, p + n))) then
      Some(Hit(p, n))
    else None
  }

  /** Pattern 4 at `p`, by the same reasoning as pattern 2, with a gap of up to 40. */
  function DigitsFirstEnAt(t: string, p: nat): (r: Option<Hit>)
    requires p <= |t|
    ensures r.Some? ==> IsCodeAt(t, r.value) && r.value.start == p
  {
    var n := DigitRun(t, p);
    DigitRunMaximal(t, p);
    if 4 <= n <= 8 && YourCodeWithin(t, p + n, Min(40, NonDigitRun(t, p + n))) then
      Some(Hit(p, n))
    else None
  }

  /**
   * `is\s*your\s*(?:verification\s*code|otp|code)` at `i`, case-insensitively.
   * Each `\s*` is followed by a letter, so only its longest choice can succeed.
   */
  predicate YourCodeAt(t: string, i: nat)
    requires i <= |t|
  {
    LiteralAtIgnoreCase(t, i, "is") && i + 2 <= |t| &&
    var j := i + 2 + SpaceRun(t, i + 2);
    LiteralAtIgnoreCase(t, j, "your") && j + 4 <= |t| &&
    var k := j + 4 + SpaceRun(t, j + 4);
    LiteralAtIgnoreCase(t, k, "otp") || LiteralAtIgnoreCase(t, k, "code") ||
    (LiteralAtIgnoreCase(t, k, "verification") && k + 12 <= |t| &&
     LiteralAtIgnoreCase(t, k + 12 + SpaceRun(t, k + 12), "code"))
  }

  predicate YourCodeWithin(t: string, s: nat, m: nat)
    requires s + m <= |t|
    decreases m
  {
    YourCodeAt(t, s + m) || (m > 0 && YourCodeWithin(t, s, m - 1))
  }

  /**
   * Where the keyword alternative `alt` of pattern 3 ends when it matches at
   * `p`: 0 is `verification\s*code`, 1 `code`, 2 `otp`, 3 `verification`.
   */
  function KeywordEndEn(t: string, p: nat, alt: nat): (r: Option<nat>)
    requires p <= |t|
    ensures r.Some? ==> p < r.value <= |t|
  {
    if alt == 0 then
      if LiteralAtIgnoreCase(t, p, "verification") && p + 12 <= |t| then
        var k := p + 12 + SpaceRun(t, p + 12);
        if LiteralAtIgnoreCase(t, k, "code") && k + 4 <= |t| then Some(k + 4) else None
      else None
    else
      var w := if alt == 1 then "code" else if alt == 2 then "otp" else "verification";
      if LiteralAtIgnoreCase(t, p, w) && p + |w| <= |t| then Some(p + |w|) else None
  }

  /** Pattern 3 at `p`, trying the keyword alternatives from `alt` on. */
  function KeywordFirstEnFrom(t: string, p: nat, alt: nat): (r: Option<Hit>)
    requires p <= |t|
    ensures r.Some? ==> IsCodeAt(t, r.value) && p < r.value.start
    decreases 4 - alt
  {
    if alt >= 4 then None
    else
      var e := KeywordEndEn(t, p, alt);
      if e.Some? && WordBoundaryAt(t, e.value) && CodeAfter(t, e.value).Some? then CodeAfter(t, e.value)
      else KeywordFirstEnFrom(t, p, alt + 1)
  }

  /** The outcome of trying pattern `pat` at position `p`. */
  function MatchAt(pat: Pattern, t: string, p: nat): (r: Option<Hit>)
    requires p <= |t|
    ensures r.Some? ==> IsCodeAt(t, r.value) && p <= r.value.start
  {
    match pat
    case KeywordFirstZh => KeywordFirstZhAt(t, p)
    case DigitsFirstZh => DigitsFirstZhAt(t, p)
    case KeywordFirstEn => if WordBoundaryAt(t, p) then KeywordFirstEnFrom(t, p, 0) else None
    case DigitsFirstEn => DigitsFirstEnAt(t, p)
  }

  /** `re.search` from position `p`: the first position at or after `p` where `pat` matches. */
  function SearchFrom(pat: Pattern, t: string, p: nat): (r: Option<Hit>)
    requires p <= |t|
    ensures r.Some? ==> IsCodeAt(t, r.value) && p <= r.value.start
    decreases |t| - p
  {
    var m := MatchAt(pat, t, p);
    if m.Some? then m else if p == |t| then None else SearchFrom(pat, t, p + 1)
  }

  function Search(pat: Pattern, t: string): (r: Option<Hit>)
    ensures r.Some? ==> IsCodeAt(t, r.value)
  {
    SearchFrom(pat, t, 0)
  }

  /** The loop over the patterns: the first one that matches gives the result. */
  function FirstMatch(pats: seq<Pattern>, t: string): (r: Option<Hit>)
    ensures r.Some? ==> IsCodeAt(t, r.value)
    decreases |pats|
  {
    if pats == [] then None
    else
      var m := Search(pats[0], t);
      if m.Some? then m else FirstMatch(pats[1..], t)
  }

  /**
   * `extract_verification_code(text)`. The source's guard `4 <= len(code) <= 8`
   * always holds for a group matched by `[0-9]{4,8}`, so it is not a branch here.
   */
  function ExtractVerificationCode(t: string): (r: Option<string>)
    ensures r.Some? ==> IsCode(r.value)
    ensures r.Some? ==> exists i, j | 0 <= i <= j <= |t| :: t[i..j] == r.value
  {
    match FirstMatch(CandidatePatterns, t)
    case None => None
    case Some(h) => Some(t[h.start..h.start + h.len])
  }

  // ---------------------------------------------------------------- properties

  /** A literal occurs at `i` exactly when the slice of that length there equals it. */
  lemma {:induction false} LiteralAtSlice(t: string, i: nat, w: string)
    requires i <= |t|
    ensures LiteralAt(t, i, w) <==> i + |w| <= |t| && t[i..i + |w|] == w
    decreases |w|
  {
    if w != [] && i < |t| {
      LiteralAtSlice(t, i + 1, w[1..]);
      if i + |w| <= |t| {
        assert t[i..i + |w|] == [t[i]] + t[i + 1..i + 1 + |w[1..]|];
        assert w == [w[0]] + w[1..];
      }
    }
  }

  /** A literal occurs at `i` under `(?i)` exactly when each character there folds to its letter. */
  lemma {:induction false} LiteralAtIgnoreCaseIs(t: string, i: nat, w: string)
    requires i <= |t|
    ensures LiteralAtIgnoreCase(t, i, w) <==>
      i + |w| <= |t| && forall k | 0 <= k < |w| :: FoldsTo(t[i + k], w[k])
    decreases |w|
  {
    if w != [] && i < |t| {
      LiteralAtIgnoreCaseIs(t, i + 1, w[1..]);
      assert forall k | 1 <= k < |w| :: w[1..][k - 1] == w[k];
    }
  }

  /** Positions where the pattern does not match are passed over. */
  lemma {:induction false} SearchFromSkip(pat: Pattern, t: string, p: nat, q: nat)
    requires p <= q <= |t|
    requires forall i | p <= i < q :: MatchAt(pat, t, i).None?
    ensures SearchFrom(pat, t, p) == SearchFrom(pat, t, q)
    decreases q - p
  {
    if p < q {
      assert MatchAt(pat, t, p).None?;
      SearchFromSkip(pat, t, p + 1, q);
    }
  }

  /** `re.search` reports the leftmost position where the pattern matches. */
  lemma {:induction false} SearchFromLeftmost(pat: Pattern, t: string, p: nat, j: nat)
    requires p <= j <= |t|
    requires MatchAt(pat, t, j).Some?
    requires forall i | p <= i < j :: MatchAt(pat, t, i).None?
    ensures SearchFrom(pat, t, p) == MatchAt(pat, t, j)
    decreases j - p
  {
    if p < j {
      assert MatchAt(pat, t, p).None?;
      SearchFromLeftmost(pat, t, p + 1, j);
      assert SearchFrom(pat, t, p) == SearchFrom(pat, t, p + 1);
    } else {
      assert SearchFrom(pat, t, p) == MatchAt(pat, t, p);
    }
  }

  /** `re.search` finds nothing exactly when the pattern matches at no position. */
  lemma {:induction false} SearchFromNone(pat: Pattern, t: string, p: nat)
    requires p <= |t|
    ensures SearchFrom(pat, t, p).None? <==> forall i | p <= i <= |t| :: MatchAt(pat, t, i).None?
    decreases |t| - p
  {
    if p < |t| {
      SearchFromNone(pat, t, p + 1);
    }
  }

  /** The first pattern of the list that matches decides the result. */
  lemma {:induction false} FirstMatchOrder(pats: seq<Pattern>, t: string, k: nat)
    requires k < |pats| && Search(pats[k], t).Some?
    requires forall i | 0 <= i < k :: Search(pats[i], t).None?
    ensures FirstMatch(pats, t) == Search(pats[k], t)
    decreases k
  {
    if k > 0 {
      assert Search(pats[0], t).None?;
      FirstMatchOrder(pats[1..], t, k - 1);
    }
  }

  /** No pattern of the list matching is the only way to get no match. */
  lemma {:induction false} FirstMatchNone(pats: seq<Pattern>, t: string)
    ensures FirstMatch(pats, t).None? <==> forall i | 0 <= i < |pats| :: Search(pats[i], t).None?
    decreases |pats|
  {
    if pats != [] {
      FirstMatchNone(pats[1..], t);
      if Search(pats[0], t).None? {
        assert forall i | 1 <= i < |pats| :: pats[1..][i - 1] == pats[i];
      }
    }
  }

  /**
   * The pattern at index `k` of the candidate list decides the result when it
   * matches and every pattern before it does not.
   */
  lemma ExtractByPattern(t: string, k: nat, h: Hit)
    requires k < |CandidatePatterns|
    requires Search(CandidatePatterns[k], t) == Some(h)
    requires forall i | 0 <= i < k :: Search(CandidatePatterns[i], t).None?
    ensures ExtractVerificationCode(t) == Some(t[h.start..h.start + h.len])
  {
    FirstMatchOrder(CandidatePatterns, t, k);
  }

  /** The first candidate pattern decides the result whenever it matches. */
  lemma ExtractByKeywordFirstZh(t: string, h: Hit)
    requires Search(KeywordFirstZh, t) == Some(h)
    ensures ExtractVerificationCode(t) == Some(t[h.start..h.start + h.len])
  {
    ExtractByPattern(t, 0, h);
  }

  /** The second pattern decides the result when it matches and the first does not. */
  lemma ExtractByDigitsFirstZh(t: string, h: Hit)
    requires Search(KeywordFirstZh, t) == None
    requires Search(DigitsFirstZh, t) == Some(h)
    ensures ExtractVerificationCode(t) == Some(t[h.start..h.start + h.len])
  {
    ExtractByPattern(t, 1, h);
  }

  /** The third pattern decides the result when it matches and the first two do not. */
  lemma ExtractByKeywordFirstEn(t: string, h: Hit)
    requires Search(KeywordFirstZh, t) == None && Search(DigitsFirstZh, t) == None
    requires Search(KeywordFirstEn, t) == Some(h)
    ensures ExtractVerificationCode(t) == Some(t[h.start..h.start + h.len])
  {
    forall i | 0 <= i < 2
      ensures Search(CandidatePatterns[i], t).None?
    {
      if i == 1 {
        assert CandidatePatterns[i] == DigitsFirstZh;
      }
    }
    ExtractByPattern(t, 2, h);
  }

  /** The last pattern decides the result when it alone matches. */
  lemma ExtractByDigitsFirstEn(t: string, h: Hit)
    requires Search(KeywordFirstZh, t) == None && Search(DigitsFirstZh, t) == None
    requires Search(KeywordFirstEn, t) == None
    requires Search(DigitsFirstEn, t) == Some(h)
    ensures ExtractVerificationCode(t) == Some(t[h.start..h.start + h.len])
  {
    forall i | 0 <= i < 3
      ensures Search(CandidatePatterns[i], t).None?
    {
      if i == 0 {
      } else if i == 1 {
      } else {
        assert CandidatePatterns[i] == KeywordFirstEn;
      }
    }
    ExtractByPattern(t, 3, h);
  }

  /** No code is found exactly when none of the four patterns matches anywhere. */
  lemma ExtractNone(t: string)
    ensures ExtractVerificationCode(t).None? <==>
      Search(KeywordFirstZh, t).None? && Search(DigitsFirstZh, t).None? &&
      Search(KeywordFirstEn, t).None? && Search(DigitsFirstEn, t).None?
  {
    FirstMatchNone(CandidatePatterns, t);
  }

  /** Four ASCII digits in a row start at position `i`. */
  predicate FourDigitsAt(t: string, i: nat) {
    i + 4 <= |t| && AllAsciiDigits(t[i..i + 4])
  }

  /** A text without four consecutive ASCII digits yields no code. */
  lemma NoFourDigitsNoCode(t: string)
    requires forall i | 0 <= i <= |t| :: !FourDigitsAt(t, i)
    ensures ExtractVerificationCode(t) == None
  {
    var m := FirstMatch(CandidatePatterns, t);
    if m.Some? {
      var h := m.value;
      assert t[h.start..h.start + 4] == t[h.start..h.start + h.len][..4];
      assert FourDigitsAt(t, h.start);
    }
  }

  /** Every hit starts with an ASCII digit of the text. */
  lemma HitStartsWithDigit(t: string, h: Hit)
    requires IsCodeAt(t, h)
    ensures h.start < |t| && IsAsciiDigit(t[h.start])
  {
    assert t[h.start..h.start + h.len][0] == t[h.start];
  }

  /** No pattern matches at or after `p` when no ASCII digit follows `p`. */
  lemma NoDigitsNoMatch(pat: Pattern, t: string, p: nat)
    requires p <= |t|
    requires forall j | p <= j < |t| :: !IsAsciiDigit(t[j])
    ensures SearchFrom(pat, t, p) == None
  {
    var m := SearchFrom(pat, t, p);
    if m.Some? {
      HitStartsWithDigit(t, m.value);
    }
  }

  lemma {:induction false} LiteralAtConcat(t: string, i: nat, u: string, v: string)
    ensures LiteralAt(t, i, u + v) <==> LiteralAt(t, i, u) && LiteralAt(t, i + |u|, v)
    decreases |u|
  {
    if u == [] {
      assert u + v == v;
    } else {
      assert (u + v)[1..] == u[1..] + v;
      LiteralAtConcat(t, i + 1, u[1..], v);
    }
  }

  /** The keyword made of prefix choice `i` and channel choice `j` is found where it occurs. */
  lemma KeywordEndZhOfParts(t: string, p: nat, i: nat, j: nat)
    requires i < |ZhPrefixes| && j < |ZhChannels|
    requires LiteralAt(t, p, ZhPrefixes[i] + ZhChannels[j] + "验证码")
    ensures KeywordEndZh(t, p) == Some(p + |ZhPrefixes[i]| + |ZhChannels[j]| + 3)
  {
    var pre, ch := ZhPrefixes[i], ZhChannels[j];
    LiteralAtConcat(t, p, pre + ch, "验证码");
    LiteralAtConcat(t, p, pre, ch);
    var a := p + |pre|;
    assert LiteralAt(t, a + |ch|, "验证码");
    assert t[a + |ch|] == '验';
    if i == 0 {
      assert LiteralAt(t, p, "您的");
    } else if i == 1 {
      assert t[p] == '您' && t[p + 1] != '的';
    } else {
      assert !LiteralAt(t, p, "您") by { assert t[p] != '您'; }
    }
    if j < 5 {
      assert LiteralAt(t, a, ch);
    } else {
      assert t[a] == '验';
    }
  }

  /** Whenever one of the keywords of pattern 1 occurs at `p`, the matcher ends after it. */
  lemma KeywordEndZhComplete(t: string, p: nat, k: nat)
    requires k < |ZhKeywords| && LiteralAt(t, p, ZhKeywords[k])
    ensures KeywordEndZh(t, p) == Some(p + |ZhKeywords[k]|)
  {
    if k < 18 {
      KeywordEndZhOfParts(t, p, k / 6, k % 6);
    } else if k == 18 {
      assert t[p + 2] == '密';
    } else {
      assert t[p] == '短' && t[p + 2] == '随';
    }
  }

  lemma KeywordOfParts(t: string, p: nat, i: nat, j: nat)
    requires i < |ZhPrefixes| && j < |ZhChannels|
    requires LiteralAt(t, p, ZhPrefixes[i])
    requires LiteralAt(t, p + |ZhPrefixes[i]|, ZhChannels[j])
    requires LiteralAt(t, p + |ZhPrefixes[i]| + |ZhChannels[j]|, "验证码")
    ensures i * 6 + j < 18 && LiteralAt(t, p, ZhKeywords[i * 6 + j])
    ensures |ZhKeywords[i * 6 + j]| == |ZhPrefixes[i]| + |ZhChannels[j]| + 3
  {
    var k := i * 6 + j;
    assert k / 6 == i && k % 6 == j;
    assert ZhKeywords[k] == ZhPrefixes[i] + ZhChannels[j] + "验证码";
    LiteralAtConcat(t, p, ZhPrefixes[i], ZhChannels[j]);
    LiteralAtConcat(t, p, ZhPrefixes[i] + ZhChannels[j], "验证码");
  }

  /** What the matcher finds at `p` is one of the keywords of pattern 1. */
  lemma KeywordEndZhSound(t: string, p: nat)
    ensures KeywordEndZh(t, p).Some? ==>
      exists k | 0 <= k < |ZhKeywords| :: LiteralAt(t, p, ZhKeywords[k]) && KeywordEndZh(t, p).value == p + |ZhKeywords[k]|
  {
    var i := if LiteralAt(t, p, "您的") then 0 else if LiteralAt(t, p, "您") then 1 else 2;
    assert LiteralAt(t, p, ZhPrefixes[i]);
    var a := p + |ZhPrefixes[i]|;
    var j := if LiteralAt(t, a, "短信") then 0 else if LiteralAt(t, a, "手机") then 1
             else if LiteralAt(t, a, "动态") then 2 else if LiteralAt(t, a, "本次") then 3
             else if LiteralAt(t, a, "登录") then 4 else 5;
    assert LiteralAt(t, a, ZhChannels[j]);
    var b := a + |ZhChannels[j]|;
    if LiteralAt(t, b, "验证码") {
      KeywordOfParts(t, p, i, j);
      assert KeywordEndZh(t, p) == Some(b + 3);
    } else if LiteralAt(t, p, "验证密码") {
      assert LiteralAt(t, p, ZhKeywords[18]);
    } else if LiteralAt(t, p, "短信随机码") {
      assert LiteralAt(t, p, ZhKeywords[19]);
    }
  }

  /** Whenever one of the tails of pattern 2 occurs at `i`, the matcher accepts it. */
  lemma SuffixZhAtComplete(t: string, i: nat, k: nat)
    requires k < |ZhSuffixes| && LiteralAt(t, i, ZhSuffixes[k])
    ensures SuffixZhAt(t, i)
  {
    var pre := ZhTailPrefixes[k];
    assert ZhSuffixes[k] == pre + "验证码";
    LiteralAtConcat(t, i, pre, "验证码");
    assert LiteralAt(t, i + |pre|, "验证码");
    assert t[i + |pre|] == '验';
    if k < 4 || k == 5 || k == 6 {
      assert LiteralAt(t, i, pre);
    } else if k == 4 {
      assert t[i] == '一';
    } else if k == 7 {
      assert t[i] == '您' && t[i + 1] == '验';
    }
  }

  /** What the matcher accepts at `i` is one of the tails of pattern 2. */
  lemma SuffixZhAtSound(t: string, i: nat)
    ensures SuffixZhAt(t, i) ==> exists k | 0 <= k < |ZhSuffixes| :: LiteralAt(t, i, ZhSuffixes[k])
  {
    var k := if LiteralAt(t, i, "登录") then 0 else if LiteralAt(t, i, "短信") then 1
             else if LiteralAt(t, i, "手机") then 2 else if LiteralAt(t, i, "动态") then 3
             else if LiteralAt(t, i, "本次") then 5 else if LiteralAt(t, i, "您的") then 6
             else if LiteralAt(t, i, "一次性") then 4 else if LiteralAt(t, i, "您") then 7 else 8;
    var pre := ZhTailPrefixes[k];
    assert LiteralAt(t, i, pre);
    if SuffixZhAt(t, i) {
      assert LiteralAt(t, i + |pre|, "验证码");
      assert ZhSuffixes[k] == pre + "验证码";
      LiteralAtConcat(t, i, pre, "验证码");
    }
  }

  /** Pattern 1 cannot match where none of its keywords begins. */
  lemma NoKeywordZhAt(t: string, p: nat)
    requires p <= |t|
    requires p == |t| || t[p] !in {'您', '短', '手', '动', '本', '登', '验'}
    ensures MatchAt(KeywordFirstZh, t, p) == None
  {
  }

  lemma {:induction false} NoSuffixZhWithin(t: string, s: nat, m: nat)
    requires forall j | s <= j <= s + m :: !SuffixZhAt(t, j)
    ensures !SuffixZhWithin(t, s, m)
    decreases m
  {
    if m > 0 {
      NoSuffixZhWithin(t, s, m - 1);
    }
  }

  predicate IsAscii(c: char) {
    c < '\U{80}'
  }

  /** The tail of pattern 2 cannot start at an ASCII character. */
  lemma NoSuffixZhAtAscii(t: string, j: nat)
    requires j >= |t| || IsAscii(t[j])
    ensures !SuffixZhAt(t, j)
  {
  }

  /** The tail of pattern 2 starts nowhere in a stretch of a text that is ASCII from `p` on. */
  lemma {:induction false} NoSuffixZhWithinAscii(t: string, p: nat, s: nat, m: nat)
    requires p <= s
    requires forall j {:trigger IsAscii(t[j])} | p <= j < |t| :: IsAscii(t[j])
    ensures !SuffixZhWithin(t, s, m)
    decreases m
  {
    NoSuffixZhAtAscii(t, s + m);
    if m > 0 {
      NoSuffixZhWithinAscii(t, p, s, m - 1);
    }
  }

  /** Pattern 2 fails at `p` when its tail is not within reach of the digits there. */
  lemma NoSuffixZhNoDigitsFirst(t: string, p: nat)
    requires p <= |t|
    requires !SuffixZhWithin(t, p + DigitRun(t, p), Min(20, NonDigitRun(t, p + DigitRun(t, p))))
    ensures MatchAt(DigitsFirstZh, t, p).None?
  {
  }

  /** Pattern 2 cannot match at `p` when no character after its digits is outside ASCII. */
  lemma {:induction false} NoDigitsFirstZhAtAscii(t: string, p: nat)
    requires p <= |t|
    requires forall j {:trigger IsAscii(t[j])} | p <= j < |t| :: IsAscii(t[j])
    ensures MatchAt(DigitsFirstZh, t, p).None?
  {
    var n := DigitRun(t, p);
    NoSuffixZhWithinAscii(t, p, p + n, Min(20, NonDigitRun(t, p + n)));
    NoSuffixZhNoDigitsFirst(t, p);
  }

  /** In a text of ASCII characters only, neither Chinese pattern matches anywhere. */
  lemma AsciiTextNoZhMatch(t: string)
    requires forall j | 0 <= j < |t| :: t[j] < '\U{80}'
    ensures Search(KeywordFirstZh, t) == None && Search(DigitsFirstZh, t) == None
  {
    forall p | 0 <= p <= |t|
      ensures MatchAt(KeywordFirstZh, t, p).None?
    {
      NoKeywordZhAt(t, p);
    }
    SearchFromNone(KeywordFirstZh, t, 0);
    forall p | 0 <= p <= |t|
      ensures MatchAt(DigitsFirstZh, t, p).None?
    {
      assert forall j {:trigger IsAscii(t[j])} | p <= j < |t| :: IsAscii(t[j]);
      NoDigitsFirstZhAtAscii(t, p);
    }
    SearchFromNone(DigitsFirstZh, t, 0);
  }

  /** The tail of pattern 2 found `j` positions after `s`, within the gap `m`. */
  lemma {:induction false} SuffixZhWithinAt(t: string, s: nat, m: nat, j: nat)
    requires j <= m && SuffixZhAt(t, s + j)
    ensures SuffixZhWithin(t, s, m)
    decreases m
  {
    if j < m {
      SuffixZhWithinAt(t, s, m - 1, j);
    }
  }
}
