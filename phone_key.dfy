/** The phone-number checks shared by the login and the registration screens:
    the length test on the masked input and the canonical key obtained by
    deleting formatting characters (`replace(/[\s()-]/g, '')`). */
module PhoneKey {
  import opened Sequences

  /** Length of a completely filled input mask `+DD (DDD) DDD - DD - DD`. */
  const MaskedLength: nat := 23

  /** The line terminators and white space matched by `\s` in a JavaScript regular expression. */
  predicate IsWhiteSpace(c: char)
  {
    c == '\t' || c == '\n' || c == '\U{B}' || c == '\U{C}' || c == '\r' || c == ' '
    || c == '\U{A0}' || c == '\U{1680}' || ('\U{2000}' <= c <= '\U{200A}')
    || c == '\U{2028}' || c == '\U{2029}' || c == '\U{202F}' || c == '\U{205F}'
    || c == '\U{3000}' || c == '\U{FEFF}'
  }

  /** The characters of the class `[\s()-]`, which canonicalisation deletes. */
  predicate IsFormatChar(c: char)
  {
    IsWhiteSpace(c) || c == '(' || c == ')' || c == '-'
  }

  predicate KeepInKey(c: char)
  {
    !IsFormatChar(c)
  }

  /** The guard `phoneNumber !== '' && phoneNumber.length === 23`. */
  predicate ValidMaskedLength(phoneNumber: string)
  {
    phoneNumber != "" && |phoneNumber| == MaskedLength
  }

  /** The canonical key: the input with every formatting character deleted and
      every other character kept, in order. */
  function Strip(phoneNumber: string): (key: string)
    ensures IsSublist(key, phoneNumber)
    ensures |key| <= |phoneNumber|
  {
    FilterIsSublist(phoneNumber, KeepInKey);
    Filter(phoneNumber, KeepInKey)
  }

  /** The key holds no formatting character, and every other character of the input. */
  lemma StripMembers(phoneNumber: string, c: char)
    ensures c in Strip(phoneNumber) <==> c in phoneNumber && !IsFormatChar(c)
  {
    FilterMembers(phoneNumber, KeepInKey, c);
  }

  /** Stripping works character by character, so it distributes over concatenation. */
  lemma StripConcat(a: string, b: string)
    ensures Strip(a + b) == Strip(a) + Strip(b)
  {
    FilterConcat(a, b, KeepInKey);
  }

  /** A canonical key is a fixed point: stripping it again changes nothing. */
  lemma StripIdempotent(phoneNumber: string)
    ensures Strip(Strip(phoneNumber)) == Strip(phoneNumber)
  {
    FilterIdempotent(phoneNumber, KeepInKey);
  }

  /** A string holding a formatting character differs from its canonical key. */
  lemma StripChangesFormatted(phoneNumber: string, i: nat)
    requires i < |phoneNumber| && IsFormatChar(phoneNumber[i])
    ensures |Strip(phoneNumber)| < |phoneNumber|
    ensures Strip(phoneNumber) != phoneNumber
  {
    FilterDropsRejected(phoneNumber, KeepInKey, i);
  }

  predicate IsDigit(c: char)
  {
    '0' <= c <= '9'
  }

  /** The text the input mask `['+', DD, ' (', DDD, ')', ' ', DDD, ' - ', DD, ' - ', DD]`
      shows once all twelve digits are typed. */
  function Masked(digits: string): (masked: string)
    requires |digits| == 12
  {
    "+" + digits[..2] + " (" + digits[2..5] + ")" + " " + digits[5..8]
    + " - " + digits[8..10] + " - " + digits[10..]
  }

  /** Digits and the leading `+` are never formatting characters. */
  lemma StripKeepsDigits(s: string)
    requires forall i :: 0 <= i < |s| ==> IsDigit(s[i]) || s[i] == '+'
    ensures Strip(s) == s
  {
    FilterKeepsAll(s, KeepInKey);
  }

  /** The literal separators of the mask vanish from the key. */
  lemma StripSeparators()
    ensures Strip(" (") == [] && Strip(")") == [] && Strip(" ") == [] && Strip(" - ") == []
  {
    assert " (" == [' ', '('] && " - " == [' ', '-', ' '];
  }

  /** A completely filled mask passes the length guard, and its canonical key is
      `+` followed by the twelve digits: 13 characters, so the masked text and
      its key are never the same string. */
  lemma {:induction false} MaskedKey(digits: string)
    requires |digits| == 12 && forall i :: 0 <= i < 12 ==> IsDigit(digits[i])
    ensures ValidMaskedLength(Masked(digits))
    ensures Strip(Masked(digits)) == "+" + digits
    ensures Strip(Masked(digits)) != Masked(digits)
  {
    var head, d1, d2, d3, d4 := "+" + digits[..2], digits[2..5], digits[5..8], digits[8..10], digits[10..];
    StripKeepsDigits(head);
    StripKeepsDigits(d1);
    StripKeepsDigits(d2);
    StripKeepsDigits(d3);
    StripKeepsDigits(d4);
    StripSeparators();
    var m1 := head + " (";
    var m2 := m1 + d1;
    var m3 := m2 + ")";
    var m4 := m3 + " ";
    var m5 := m4 + d2;
    var m6 := m5 + " - ";
    var m7 := m6 + d3;
    var m8 := m7 + " - ";
    var m9 := m8 + d4;
    assert m9 == Masked(digits);
    StripConcat(head, " (");
    StripConcat(m1, d1);
    StripConcat(m2, ")");
    StripConcat(m3, " ");
    StripConcat(m4, d2);
    StripConcat(m5, " - ");
    StripConcat(m6, d3);
    StripConcat(m7, " - ");
    StripConcat(m8, d4);
    assert digits == digits[..2] + d1 + d2 + d3 + d4;
  }
}
