/**
 * The extractor on the sample messages listed in core/utils/text.py and on
 * the repository's test message, worked out pattern by pattern. Each text
 * is written as two pieces joined, which the verifier unfolds only as far as
 * each step asks.
 */
module TextExamples {
  import opened Wrappers
  import opened PyValues
  import opened Text

  // ---------------------------------------------------------------- keyword first, Chinese

  const ColonCode := "验证码: " + "235658"

  lemma ColonCodeSearch()
    ensures Search(KeywordFirstZh, ColonCode) == Some(Hit(5, 6))
  {
    assert KeywordEndZh(ColonCode, 0) == Some(3);
    NonDigitRunIs(ColonCode, 3, 2);
    DigitRunIs(ColonCode, 5, 6);
    SearchFromLeftmost(KeywordFirstZh, ColonCode, 0, 0);
  }

  /** Keyword first: the digits after 验证码 and its separator. */
  lemma ColonCodeExtracted()
    ensures ExtractVerificationCode(ColonCode) == Some("235658")
  {
    ColonCodeSearch();
    assert ColonCode[5..11] == "235658";
    ExtractByKeywordFirstZh(ColonCode, Hit(5, 6));
  }

  const RandomCode := "短信随机码" + "218271"

  lemma RandomCodeSearch()
    ensures Search(KeywordFirstZh, RandomCode) == Some(Hit(5, 6))
  {
    assert KeywordEndZh(RandomCode, 0) == Some(5);
    NonDigitRunIs(RandomCode, 5, 0);
    DigitRunIs(RandomCode, 5, 6);
    SearchFromLeftmost(KeywordFirstZh, RandomCode, 0, 0);
  }

  /** Keyword first: 短信随机码 is reached after the 短信…验证码 reading fails on it. */
  lemma RandomCodeExtracted()
    ensures ExtractVerificationCode(RandomCode) == Some("218271")
  {
    RandomCodeSearch();
    assert RandomCode[5..11] == "218271";
    ExtractByKeywordFirstZh(RandomCode, Hit(5, 6));
  }

  const PhoneNumberCode := "手机号验证码: " + "114614"

  /** 手机 does not lead to 验证码 at 0, so the search moves on to the 验证码 at 3. */
  lemma PhoneNumberCodeSearch()
    ensures Search(KeywordFirstZh, PhoneNumberCode) == Some(Hit(8, 6))
  {
    assert KeywordEndZh(PhoneNumberCode, 0) == None;
    assert KeywordEndZh(PhoneNumberCode, 1) == None;
    assert KeywordEndZh(PhoneNumberCode, 2) == None;
    assert KeywordEndZh(PhoneNumberCode, 3) == Some(6);
    NonDigitRunIs(PhoneNumberCode, 6, 2);
    DigitRunIs(PhoneNumberCode, 8, 6);
    SearchFromLeftmost(KeywordFirstZh, PhoneNumberCode, 0, 3);
  }

  lemma PhoneNumberCodeExtracted()
    ensures ExtractVerificationCode(PhoneNumberCode) == Some("114614")
  {
    PhoneNumberCodeSearch();
    assert PhoneNumberCode[8..14] == "114614";
    ExtractByKeywordFirstZh(PhoneNumberCode, Hit(8, 6));
  }

  const TestMessage := "【测试标题】验证码复制按钮" + "\n账号中心，验证码：048460"

  /**
   * The repository's test message: the title's 验证码 matches first, and
   * `\D*` carries the search over the rest of the title to the code.
   */
  lemma TestMessageSearch()
    ensures Search(KeywordFirstZh, TestMessage) == Some(Hit(23, 6))
  {
    forall i | 0 <= i < 6
      ensures MatchAt(KeywordFirstZh, TestMessage, i).None?
    {
      NoKeywordZhAt(TestMessage, i);
    }
    assert KeywordEndZh(TestMessage, 6) == Some(9);
    NonDigitRunIs(TestMessage, 9, 14);
    DigitRunIs(TestMessage, 23, 6);
    SearchFromLeftmost(KeywordFirstZh, TestMessage, 0, 6);
  }

  lemma TestMessageExtracted()
    ensures ExtractVerificationCode(TestMessage) == Some("048460")
  {
    TestMessageSearch();
    assert TestMessage[23..29] == "048460";
    ExtractByKeywordFirstZh(TestMessage, Hit(23, 6));
  }

  // ---------------------------------------------------------------- digits first, Chinese

  const PayPal := "PayPal: 232148 " + "是您的验证码"

  /** Pattern 1 finds 您的验证码 but no digits after it. */
  lemma PayPalKeywordFirst()
    ensures Search(KeywordFirstZh, PayPal) == None
  {
    forall i | 0 <= i < 14
      ensures MatchAt(KeywordFirstZh, PayPal, i).None?
    {
      NoKeywordZhAt(PayPal, i);
    }
    SearchFromSkip(KeywordFirstZh, PayPal, 0, 14);
    NoDigitsNoMatch(KeywordFirstZh, PayPal, 14);
  }

  lemma PayPalDigitsFirst()
    ensures Search(DigitsFirstZh, PayPal) == Some(Hit(8, 6))
  {
    forall i | 0 <= i < 8
      ensures MatchAt(DigitsFirstZh, PayPal, i).None?
    {
      assert !IsAsciiDigit(PayPal[i]);
    }
    DigitRunIs(PayPal, 8, 6);
    NonDigitRunIs(PayPal, 14, 7);
    assert SuffixZhAt(PayPal, 16);
    SuffixZhWithinAt(PayPal, 14, 7, 2);
    SearchFromLeftmost(DigitsFirstZh, PayPal, 0, 8);
  }

  /** Digits first: the number before 是您的验证码. */
  lemma PayPalExtracted()
    ensures ExtractVerificationCode(PayPal) == Some("232148")
  {
    PayPalKeywordFirst();
    PayPalDigitsFirst();
    assert PayPal[8..14] == "232148";
    ExtractByDigitsFirstZh(PayPal, Hit(8, 6));
  }

  const Dynamic := "9580" + "（动态验证码）"

  lemma DynamicKeywordFirst()
    ensures Search(KeywordFirstZh, Dynamic) == None
  {
    forall i | 0 <= i < 4
      ensures MatchAt(KeywordFirstZh, Dynamic, i).None?
    {
      NoKeywordZhAt(Dynamic, i);
    }
    SearchFromSkip(KeywordFirstZh, Dynamic, 0, 4);
    NoDigitsNoMatch(KeywordFirstZh, Dynamic, 4);
  }

  lemma DynamicDigitsFirst()
    ensures Search(DigitsFirstZh, Dynamic) == Some(Hit(0, 4))
  {
    DigitRunIs(Dynamic, 0, 4);
    NonDigitRunIs(Dynamic, 4, 7);
    assert SuffixZhAt(Dynamic, 5);
    SuffixZhWithinAt(Dynamic, 4, 7, 1);
    SearchFromLeftmost(DigitsFirstZh, Dynamic, 0, 0);
  }

  /** Digits first: the number before the bracketed 动态验证码. */
  lemma DynamicExtracted()
    ensures ExtractVerificationCode(Dynamic) == Some("9580")
  {
    DynamicKeywordFirst();
    DynamicDigitsFirst();
    assert Dynamic[0..4] == "9580";
    ExtractByDigitsFirstZh(Dynamic, Hit(0, 4));
  }

  /** Digits first: a run of nine digits cannot be group 1 at its start, so the last eight are taken. */
  const LongRun := "123456789" + "验证码"

  lemma LongRunKeywordFirst()
    ensures Search(KeywordFirstZh, LongRun) == None
  {
    forall i | 0 <= i < 9
      ensures MatchAt(KeywordFirstZh, LongRun, i).None?
    {
      NoKeywordZhAt(LongRun, i);
    }
    SearchFromSkip(KeywordFirstZh, LongRun, 0, 9);
    NoDigitsNoMatch(KeywordFirstZh, LongRun, 9);
  }

  lemma LongRunDigitsFirst()
    ensures Search(DigitsFirstZh, LongRun) == Some(Hit(1, 8))
  {
    DigitRunIs(LongRun, 0, 9);
    assert MatchAt(DigitsFirstZh, LongRun, 0).None?;
    DigitRunIs(LongRun, 1, 8);
    NonDigitRunIs(LongRun, 9, 3);
    assert SuffixZhAt(LongRun, 9);
    SearchFromLeftmost(DigitsFirstZh, LongRun, 0, 1);
  }

  lemma LongRunExtracted()
    ensures ExtractVerificationCode(LongRun) == Some("23456789")
  {
    LongRunKeywordFirst();
    LongRunDigitsFirst();
    assert LongRun[1..9] == "23456789";
    ExtractByDigitsFirstZh(LongRun, Hit(1, 8));
  }

  // ---------------------------------------------------------------- English

  const CodeWord := "code " + "123456"

  lemma CodeWordSearch()
    ensures Search(KeywordFirstEn, CodeWord) == Some(Hit(5, 6))
  {
    assert WordBoundaryAt(CodeWord, 0);
    assert KeywordEndEn(CodeWord, 0, 0) == None;
    LiteralAtIgnoreCaseIs(CodeWord, 0, "code");
    assert KeywordEndEn(CodeWord, 0, 1) == Some(4);
    assert WordBoundaryAt(CodeWord, 4);
    NonDigitRunIs(CodeWord, 4, 1);
    DigitRunIs(CodeWord, 5, 6);
    SearchFromLeftmost(KeywordFirstEn, CodeWord, 0, 0);
  }

  /** English: the number after the word code. */
  lemma CodeWordExtracted()
    ensures ExtractVerificationCode(CodeWord) == Some("123456")
  {
    AsciiTextNoZhMatch(CodeWord);
    CodeWordSearch();
    assert CodeWord[5..11] == "123456";
    ExtractByKeywordFirstEn(CodeWord, Hit(5, 6));
  }

  const OtpWord := "otp " + "654321"

  lemma OtpWordSearch()
    ensures Search(KeywordFirstEn, OtpWord) == Some(Hit(4, 6))
  {
    assert WordBoundaryAt(OtpWord, 0);
    assert KeywordEndEn(OtpWord, 0, 0) == None;
    assert KeywordEndEn(OtpWord, 0, 1) == None;
    LiteralAtIgnoreCaseIs(OtpWord, 0, "otp");
    assert KeywordEndEn(OtpWord, 0, 2) == Some(3);
    assert WordBoundaryAt(OtpWord, 3);
    NonDigitRunIs(OtpWord, 3, 1);
    DigitRunIs(OtpWord, 4, 6);
    SearchFromLeftmost(KeywordFirstEn, OtpWord, 0, 0);
  }

  /** English: the number after otp. */
  lemma OtpWordExtracted()
    ensures ExtractVerificationCode(OtpWord) == Some("654321")
  {
    AsciiTextNoZhMatch(OtpWord);
    OtpWordSearch();
    assert OtpWord[4..10] == "654321";
    ExtractByKeywordFirstEn(OtpWord, Hit(4, 6));
  }

  const VerificationCode := "verification code: " + "112233"

  lemma VerificationCodeFirstWord()
    ensures LiteralAtIgnoreCase(VerificationCode, 0, "verification")
  {
    LiteralAtIgnoreCaseIs(VerificationCode, 0, "verification");
  }

  lemma VerificationCodeSecondWord()
    ensures LiteralAtIgnoreCase(VerificationCode, 13, "code")
  {
    LiteralAtIgnoreCaseIs(VerificationCode, 13, "code");
  }

  lemma VerificationCodeSpace()
    ensures SpaceRun(VerificationCode, 12) == 1
  {
    assert IsSpace(VerificationCode[12]) && !IsSpace(VerificationCode[13]);
  }

  /** `verification\s*code` covers the first 17 characters. */
  lemma VerificationCodeKeyword()
    ensures KeywordEndEn(VerificationCode, 0, 0) == Some(17)
  {
    VerificationCodeFirstWord();
    VerificationCodeSpace();
    VerificationCodeSecondWord();
  }

  lemma VerificationCodeNumber()
    ensures CodeAfter(VerificationCode, 17) == Some(Hit(19, 6))
  {
    NonDigitRunIs(VerificationCode, 17, 2);
    DigitRunIs(VerificationCode, 19, 6);
  }

  lemma VerificationCodeMatch()
    ensures MatchAt(KeywordFirstEn, VerificationCode, 0) == Some(Hit(19, 6))
  {
    var t := VerificationCode;
    assert WordBoundaryAt(t, 0);
    VerificationCodeKeyword();
    assert WordBoundaryAt(t, 17);
    VerificationCodeNumber();
  }

  lemma VerificationCodeSearch()
    ensures Search(KeywordFirstEn, VerificationCode) == Some(Hit(19, 6))
  {
    VerificationCodeMatch();
    SearchFromLeftmost(KeywordFirstEn, VerificationCode, 0, 0);
  }

  /** English: `verification\s*code` is the first alternative tried. */
  lemma VerificationCodeExtracted()
    ensures ExtractVerificationCode(VerificationCode) == Some("112233")
  {
    AsciiTextNoZhMatch(VerificationCode);
    VerificationCodeSearch();
    assert VerificationCode[19..25] == "112233";
    ExtractByKeywordFirstEn(VerificationCode, Hit(19, 6));
  }

  const UpperCase := "Your CODE " + "123456"

  /** Inside Your and at the space after it no keyword can start. */
  lemma UpperCaseNoMatchBefore()
    ensures forall i | 0 <= i < 5 :: MatchAt(KeywordFirstEn, UpperCase, i).None?
  {
    var t := UpperCase;
    assert KeywordFirstEnFrom(t, 0, 0).None?;
    assert !WordBoundaryAt(t, 1) && !WordBoundaryAt(t, 2) && !WordBoundaryAt(t, 3);
    assert KeywordFirstEnFrom(t, 4, 0).None?;
  }

  /** At CODE the second alternative matches, ignoring case. */
  lemma UpperCaseMatch()
    ensures MatchAt(KeywordFirstEn, UpperCase, 5) == Some(Hit(10, 6))
  {
    var t := UpperCase;
    assert WordBoundaryAt(t, 5);
    assert KeywordEndEn(t, 5, 0) == None;
    LiteralAtIgnoreCaseIs(t, 5, "code");
    assert KeywordEndEn(t, 5, 1) == Some(9);
    assert WordBoundaryAt(t, 9);
    NonDigitRunIs(t, 9, 1);
    DigitRunIs(t, 10, 6);
  }

  lemma UpperCaseSearch()
    ensures Search(KeywordFirstEn, UpperCase) == Some(Hit(10, 6))
  {
    UpperCaseNoMatchBefore();
    UpperCaseMatch();
    SearchFromLeftmost(KeywordFirstEn, UpperCase, 0, 5);
  }

  /** English keywords match in any letter case. */
  lemma UpperCaseExtracted()
    ensures ExtractVerificationCode(UpperCase) == Some("123456")
  {
    AsciiTextNoZhMatch(UpperCase);
    UpperCaseSearch();
    assert UpperCase[10..16] == "123456";
    ExtractByKeywordFirstEn(UpperCase, Hit(10, 6));
  }

  // ---------------------------------------------------------------- the order of the patterns

  const TwoNumbers := "code 1234, 5678" + "是您的验证码"

  /** On its own, the English keyword pattern would take the first number. */
  lemma TwoNumbersKeywordFirstEn()
    ensures Search(KeywordFirstEn, TwoNumbers) == Some(Hit(5, 4))
  {
    var t := TwoNumbers;
    assert WordBoundaryAt(t, 0);
    assert KeywordEndEn(t, 0, 0) == None;
    LiteralAtIgnoreCaseIs(t, 0, "code");
    assert KeywordEndEn(t, 0, 1) == Some(4);
    assert WordBoundaryAt(t, 4);
    NonDigitRunIs(t, 4, 1);
    DigitRunIs(t, 5, 4);
    SearchFromLeftmost(KeywordFirstEn, t, 0, 0);
  }

  lemma TwoNumbersKeywordFirstZh()
    ensures Search(KeywordFirstZh, TwoNumbers) == None
  {
    forall i | 0 <= i < 15
      ensures MatchAt(KeywordFirstZh, TwoNumbers, i).None?
    {
      NoKeywordZhAt(TwoNumbers, i);
    }
    SearchFromSkip(KeywordFirstZh, TwoNumbers, 0, 15);
    NoDigitsNoMatch(KeywordFirstZh, TwoNumbers, 15);
  }

  /** No run of four digits starts before 1234 or inside either number's tail. */
  lemma TwoNumbersShortRuns()
    ensures forall i | 0 <= i < 11 && i != 5 :: MatchAt(DigitsFirstZh, TwoNumbers, i).None?
  {
    var t := TwoNumbers;
    forall i | 0 <= i < 11 && i != 5
      ensures MatchAt(DigitsFirstZh, t, i).None?
    {
      assert DigitRun(t, i) < 4 by {
        if i < 5 || 8 < i {
          assert !IsAsciiDigit(t[i]);
        } else {
          DigitRunIs(t, i, 9 - i);
        }
      }
    }
  }

  /** 1234 is followed by a comma and a space, not by 验证码. */
  lemma TwoNumbersFirstNumber()
    ensures MatchAt(DigitsFirstZh, TwoNumbers, 5).None?
  {
    var t := TwoNumbers;
    DigitRunIs(t, 5, 4);
    NonDigitRunIs(t, 9, 2);
    NoSuffixZhAtAscii(t, 9);
    NoSuffixZhAtAscii(t, 10);
    NoSuffixZhAtAscii(t, 11);
    NoSuffixZhWithin(t, 9, 2);
  }

  /** 5678 is followed by 是 and then 您的验证码. */
  lemma TwoNumbersSecondNumber()
    ensures MatchAt(DigitsFirstZh, TwoNumbers, 11) == Some(Hit(11, 4))
  {
    var t := TwoNumbers;
    DigitRunIs(t, 11, 4);
    NonDigitRunIs(t, 15, 6);
    assert SuffixZhAt(t, 16);
    SuffixZhWithinAt(t, 15, 6, 1);
  }

  lemma TwoNumbersDigitsFirstZh()
    ensures Search(DigitsFirstZh, TwoNumbers) == Some(Hit(11, 4))
  {
    TwoNumbersShortRuns();
    TwoNumbersFirstNumber();
    TwoNumbersSecondNumber();
    SearchFromLeftmost(DigitsFirstZh, TwoNumbers, 0, 11);
  }

  /**
   * The Chinese digits-first pattern comes before the English ones, so the
   * number before 是您的验证码 wins over the number after code.
   */
  lemma TwoNumbersExtracted()
    ensures ExtractVerificationCode(TwoNumbers) == Some("5678")
  {
    TwoNumbersKeywordFirstZh();
    TwoNumbersDigitsFirstZh();
    assert TwoNumbers[11..15] == "5678";
    ExtractByDigitsFirstZh(TwoNumbers, Hit(11, 4));
  }
}
