/** The phone-number normaliser used by both send handlers: keep the ASCII
    digits, apply the Bangladesh country-code rule, and append the chat suffix. */
module Phone {
  import opened Wrappers

  const COUNTRY_CODE: string := "88"
  const CHAT_SUFFIX: string := "@c.us"
  /** Length of a national number that still lacks the country code. */
  const NATIONAL_LENGTH: nat := 11

  predicate IsDigit(c: char) {
    '0' <= c <= '9'
  }

  predicate AllDigits(s: string) {
    forall i :: 0 <= i < |s| ==> IsDigit(s[i])
  }

  /** JavaScript's `s.startsWith(p)`. */
  predicate StartsWith(s: string, p: string) {
    |p| <= |s| && s[..|p|] == p
  }

  /** `s.replace(/[^0-9]/g, '')`: the digits of `s`, in order. */
  function Digits(s: string): (r: string)
    ensures AllDigits(r)
    ensures |r| <= |s|
  {
    if s == [] then []
    else (if IsDigit(s[0]) then [s[0]] else []) + Digits(s[1..])
  }

  /** True when the country code is prepended to the digit string `d`. */
  predicate NeedsCountryCode(d: string) {
    StartsWith(d, "0") || (!StartsWith(d, COUNTRY_CODE) && |d| == NATIONAL_LENGTH)
  }

  /** The formatted phone number of both send handlers. A leading `0` is kept
      after the prepended country code. */
  function Normalize(raw: string): (r: string)
    ensures AllDigits(r)
    ensures !StartsWith(r, "0")
    ensures NeedsCountryCode(Digits(raw)) ==> r == COUNTRY_CODE + Digits(raw)
    ensures !NeedsCountryCode(Digits(raw)) ==> r == Digits(raw)
  {
    var formatted := Digits(raw);
    var prefixed := COUNTRY_CODE + formatted;
    assert prefixed[0] == '8';
    if StartsWith(formatted, "0") then prefixed
    else if !StartsWith(formatted, COUNTRY_CODE) && |formatted| == NATIONAL_LENGTH then prefixed
    else formatted
  }

  /** The chat identifier the library is addressed with. */
  function ChatId(raw: string): (id: string)
    ensures |id| == |Normalize(raw)| + |CHAT_SUFFIX|
    ensures AllDigits(id[..|Normalize(raw)|])
  {
    Normalize(raw) + CHAT_SUFFIX
  }

  /** The inverse of `ChatId` on its image: the digits before the suffix, if
      `id` is an all-digit number followed by the chat suffix. */
  function Recipient(id: string): (r: Option<string>)
    ensures r.Some? ==> r.value + CHAT_SUFFIX == id && AllDigits(r.value)
  {
    if |id| >= |CHAT_SUFFIX| && id[|id| - |CHAT_SUFFIX|..] == CHAT_SUFFIX && AllDigits(id[..|id| - |CHAT_SUFFIX|])
    then Some(id[..|id| - |CHAT_SUFFIX|])
    else None
  }

  // ---------------------------------------------------------------- lemmas

  /** Filtering distributes over concatenation. */
  lemma {:induction false} DigitsAppend(a: string, b: string)
    ensures Digits(a + b) == Digits(a) + Digits(b)
  {
    if a == [] {
      assert a + b == b;
    } else {
      assert (a + b)[0] == a[0];
      assert (a + b)[1..] == a[1..] + b;
      DigitsAppend(a[1..], b);
    }
  }

  /** A string is left unchanged by digit filtering exactly when it is all digits. */
  lemma {:induction false} DigitsFixedPoint(s: string)
    ensures Digits(s) == s <==> AllDigits(s)
  {
    if s != [] {
      DigitsFixedPoint(s[1..]);
      if IsDigit(s[0]) {
        assert AllDigits(s) <==> AllDigits(s[1..]) by {
          if AllDigits(s[1..]) {
            forall i | 0 <= i < |s| ensures IsDigit(s[i]) {
              if i > 0 { assert s[i] == s[1..][i - 1]; }
            }
          }
        }
        assert Digits(s) == [s[0]] + Digits(s[1..]);
        assert s == [s[0]] + s[1..];
      } else {
        assert |Digits(s)| < |s|;
      }
    }
  }

  /** Filtering twice is filtering once. */
  lemma DigitsIdempotent(s: string)
    ensures Digits(Digits(s)) == Digits(s)
  {
    DigitsFixedPoint(Digits(s));
  }

  /** Normalising an already normalised number changes nothing. */
  lemma NormalizeIdempotent(raw: string)
    ensures Normalize(Normalize(raw)) == Normalize(raw)
  {
    var n := Normalize(raw);
    DigitsFixedPoint(n);
    assert Digits(n) == n;
    if NeedsCountryCode(Digits(raw)) {
      assert n[..2] == COUNTRY_CODE;
      assert StartsWith(n, COUNTRY_CODE);
    }
  }

  lemma AllDigitsAppend(a: string, b: string)
    requires AllDigits(a) && AllDigits(b)
    ensures AllDigits(a + b)
  {
    forall i | 0 <= i < |a + b| ensures IsDigit((a + b)[i]) {
      if i < |a| { assert (a + b)[i] == a[i]; }
      else { assert (a + b)[i] == b[i - |a|]; }
    }
  }

  /** The filter drops a non-digit character wherever it stands. */
  lemma DigitsDropsNonDigit(a: string, c: char, b: string)
    requires !IsDigit(c)
    ensures Digits(a + [c] + b) == Digits(a + b)
  {
    DigitsAppend(a + [c], b);
    DigitsAppend(a, [c]);
    DigitsAppend(a, b);
    assert Digits([c]) == [];
  }

  /** Stray characters (a `+`, spaces, dashes) anywhere in the input do not
      change the normalised number. */
  lemma NormalizeIgnoresSeparators(a: string, c: char, b: string)
    requires !IsDigit(c)
    ensures Normalize(a + [c] + b) == Normalize(a + b)
  {
    DigitsDropsNonDigit(a, c, b);
  }

  /** The chat identifier round-trips to the normalised number. */
  lemma RecipientOfChatId(raw: string)
    ensures Recipient(ChatId(raw)) == Some(Normalize(raw))
  {
    var n := Normalize(raw);
    var id := ChatId(raw);
    assert id[|id| - |CHAT_SUFFIX|..] == CHAT_SUFFIX;
    assert id[..|id| - |CHAT_SUFFIX|] == n;
  }

  /** Two raw inputs address the same chat exactly when they normalise alike. */
  lemma ChatIdInjective(a: string, b: string)
    ensures ChatId(a) == ChatId(b) <==> Normalize(a) == Normalize(b)
  {
    RecipientOfChatId(a);
    RecipientOfChatId(b);
  }

  /** A local mobile number, written with its leading zero, gains the country
      code and keeps the zero. */
  lemma LocalMobileExample()
    ensures Normalize("01712345678") == "8801712345678"
    ensures ChatId("01712345678") == "8801712345678@c.us"
  {
    LocalMobileIsDigits();
    DigitsFixedPoint("01712345678");
    assert Normalize("01712345678") == "8801712345678";
    assert "8801712345678" + CHAT_SUFFIX == "8801712345678@c.us";
  }

  lemma LocalMobileIsDigits()
    ensures AllDigits("01712345678")
  {
    var d := "01712345678";
    forall i | 0 <= i < |d| ensures IsDigit(d[i]) {}
  }
}
