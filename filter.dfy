/** The content script's translation filter, `shouldTranslate`: a heuristic
    that keeps short texts, links, pure emoji and text already in the target
    script away from the translation service. */
module Filter {
  import opened JsString

  /** Texts shorter than this many UTF-16 code units are not translated. */
  const MinLength := 2

  predicate IsAsciiAlphanumeric(c: char)
  {
    ('a' <= c <= 'z') || ('A' <= c <= 'Z') || ('0' <= c <= '9')
  }

  /** Membership in Unicode general category P (`\p{P}`), for the ASCII and
      Latin-1 code points. */
  predicate IsPunctuation(c: char)
  {
    var n := c as int;
    (0x21 <= n <= 0x23) || (0x25 <= n <= 0x2A) || (0x2C <= n <= 0x2F)
    || n == 0x3A || n == 0x3B || n == 0x3F || n == 0x40
    || (0x5B <= n <= 0x5D) || n == 0x5F || n == 0x7B || n == 0x7D
    || n == 0xA1 || n == 0xA7 || n == 0xAB || n == 0xB6 || n == 0xB7 || n == 0xBB || n == 0xBF
  }

  /** One code point of the class `[a-zA-Z0-9\s\p{P}]`. */
  predicate IsEnglishChar(c: char)
  {
    IsAsciiAlphanumeric(c) || IsWhitespace(c) || IsPunctuation(c)
  }

  /** `/^[a-zA-Z0-9\s\p{P}]+$/u.test(text)`. */
  predicate LooksEnglish(text: string)
  {
    |text| > 0 && forall i :: 0 <= i < |text| ==> IsEnglishChar(text[i])
  }

  /** The Japanese ranges: CJK symbols and punctuation, hiragana, katakana,
      half- and full-width forms, CJK unified ideographs and extension A. */
  predicate IsJapaneseChar(c: char)
  {
    var n := c as int;
    (0x3000 <= n <= 0x303F) || (0x3040 <= n <= 0x309F) || (0x30A0 <= n <= 0x30FF)
    || (0xFF00 <= n <= 0xFF9F) || (0x4E00 <= n <= 0x9FAF) || (0x3400 <= n <= 0x4DBF)
  }

  /** The Japanese-range regex finds a match somewhere in `text`. */
  predicate HasJapanese(text: string)
  {
    exists i | 0 <= i < |text| :: IsJapaneseChar(text[i])
  }

  predicate IsHighSurrogate(c: char)
  {
    0xD800 <= c as int <= 0xDBFF
  }

  predicate IsLowSurrogate(c: char)
  {
    0xDC00 <= c as int <= 0xDFFF
  }

  /** `/^[\uD800-\uDBFF][\uDC00-\uDFFF]+$/u.test(text)` as written: with the
      `u` flag the regex reads code points, so it asks for a lone high
      surrogate followed by lone low surrogates. */
  predicate EmojiPatternMatches(text: string)
  {
    |text| >= 2 && IsHighSurrogate(text[0])
    && forall i :: 1 <= i < |text| ==> IsLowSurrogate(text[i])
  }

  /** What the emoji test is for: the text is one or more surrogate pairs,
      that is, one or more code points above U+FFFF. */
  predicate EmojiOnly(text: string)
  {
    |text| > 0 && forall i :: 0 <= i < |text| ==> IsAstral(text[i])
  }

  /** The checks of `shouldTranslate` in the source's order, with the verdict
      of the emoji test passed in. */
  function Screen(text: string, targetLang: string, emoji: bool): bool
  {
    if Utf16Length(text) < MinLength then false
    else if emoji then false
    else if Contains(text, "http") then false
    else if targetLang == "en" && LooksEnglish(text) then false
    else if targetLang == "ja" && HasJapanese(text) then false
    else true
  }

  /** `shouldTranslate` with the emoji regex exactly as the source writes it. */
  function ShouldTranslateAsWritten(text: string, targetLang: string): bool
  {
    Screen(text, targetLang, EmojiPatternMatches(text))
  }

  /** `shouldTranslate` with the emoji test doing what it is meant to do;
      the rest of the model uses this one. */
  function ShouldTranslate(text: string, targetLang: string): bool
  {
    Screen(text, targetLang, EmojiOnly(text))
  }

  /** The filter accepts exactly the texts that pass every check. */
  lemma ShouldTranslateExactly(text: string, targetLang: string)
    ensures ShouldTranslate(text, targetLang) <==>
      && Utf16Length(text) >= MinLength
      && !EmojiOnly(text)
      && !Contains(text, "http")
      && !(targetLang == "en" && LooksEnglish(text))
      && !(targetLang == "ja" && HasJapanese(text))
  {
  }

  /** The empty text and a single character of the Basic Multilingual Plane
      are too short; one emoji (two code units) is not. */
  lemma ShortTextRejected(text: string, targetLang: string)
    requires |text| == 0 || (|text| == 1 && !IsAstral(text[0]))
    ensures !ShouldTranslate(text, targetLang)
    ensures !ShouldTranslateAsWritten(text, targetLang)
  {
  }

  /** Any text with "http" somewhere in it is rejected, whatever the target. */
  lemma UrlRejected(text: string, targetLang: string, i: nat)
    requires i + 4 <= |text| && text[i..i + 4] == "http"
    ensures !ShouldTranslate(text, targetLang)
    ensures !ShouldTranslateAsWritten(text, targetLang)
  {
    assert OccursAt(text, "http", i);
  }

  /** With target `en`, text made only of ASCII letters, digits, whitespace and
      ASCII punctuation is taken to be English already. */
  lemma AsciiTextRejectedForEnglish(text: string)
    requires |text| > 0
    requires forall i :: 0 <= i < |text| ==>
      text[i] as int < 0x80 && (IsAsciiAlphanumeric(text[i]) || IsWhitespace(text[i]) || IsPunctuation(text[i]))
    ensures !ShouldTranslate(text, "en")
  {
  }

  /** With target `ja`, one character in the Japanese ranges anywhere is enough
      to reject the text. */
  lemma JapaneseTextRejectedForJapanese(text: string, i: nat)
    requires i < |text| && IsJapaneseChar(text[i])
    ensures !ShouldTranslate(text, "ja")
    ensures !ShouldTranslateAsWritten(text, "ja")
  {
  }

  /** A Japanese greeting is sent for translation into English. */
  lemma GreetingAcceptedForEnglish()
    ensures ShouldTranslate("こんにちは", "en")
  {
    var t := "こんにちは";
    assert Utf16Length(t) >= MinLength by {
      Utf16LengthOfBmp(t);
    }
    assert !EmojiOnly(t) by {
      assert !IsAstral(t[0]);
    }
    assert !Contains(t, "http") by {
      AbsentFirstCharNotContained(t, "http");
    }
    assert !LooksEnglish(t) by {
      assert !IsEnglishChar(t[0]);
    }
    assert "en" != "ja" by {
      assert "en"[0] != "ja"[0];
    }
  }

  /** The emoji regex as written can never match: a string of code points
      holds no lone surrogates. */
  lemma EmojiPatternNeverMatches(text: string)
    ensures !EmojiPatternMatches(text)
  {
    if |text| >= 2 {
      assert !IsHighSurrogate(text[0]);
    }
  }

  /** The two filters differ only on pure-emoji text. */
  lemma AsWrittenAgreesAwayFromEmoji(text: string, targetLang: string)
    requires !EmojiOnly(text)
    ensures ShouldTranslateAsWritten(text, targetLang) == ShouldTranslate(text, targetLang)
  {
    EmojiPatternNeverMatches(text);
  }

  /** Two grinning faces: the source sends them for translation, the corrected
      filter does not. */
  lemma AsWrittenSendsPureEmoji()
    ensures ShouldTranslateAsWritten("\U{1F600}\U{1F600}", "en")
    ensures !ShouldTranslate("\U{1F600}\U{1F600}", "en")
  {
    var t := "\U{1F600}\U{1F600}";
    EmojiPatternNeverMatches(t);
    assert Utf16Length(t) == 4;
    assert !IsEnglishChar(t[0]);
    assert !OccursAt(t, "http", 0);
  }
}
