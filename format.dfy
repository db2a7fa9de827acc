/**
 * The integer and string formatters of src/lib/utils/format.ts. The
 * relative-time formatter takes the elapsed whole seconds instead of reading
 * the clock.
 */
module Format {
  import opened Common

  // ---------------------------------------------------------------------
  // formatRelativeTime (format.ts:47-78)

  datatype TimeUnit = Minute | Hour | Day | Month | Year

  /** The bucket a duration falls in: "just now", or a count of one unit. */
  datatype RelativeTime = JustNow | Ago(count: nat, unit: TimeUnit)

  /** Seconds per unit, with 30-day months and 12-month years. */
  function UnitSeconds(u: TimeUnit): nat {
    match u
    case Minute => 60
    case Hour => 3600
    case Day => 86400
    case Month => 2592000
    case Year => 31104000
  }

  function UnitName(u: TimeUnit): string {
    match u
    case Minute => "minute"
    case Hour => "hour"
    case Day => "day"
    case Month => "month"
    case Year => "year"
  }

  /**
   * The bucket `formatRelativeTime` picks: under a minute, including negative
   * (future) durations, is "just now"; otherwise the largest unit whose
   * floored count is below the next unit's size, years without limit.
   */
  function RelativeBucket(elapsed: int): (r: RelativeTime)
    ensures r == JustNow <==> elapsed < 60
    ensures r.Ago? ==> r.count >= 1 && r.count == elapsed / UnitSeconds(r.unit)
    ensures r.Ago? && r.unit == Minute <==> 60 <= elapsed < 3600
    ensures r.Ago? && r.unit == Hour <==> 3600 <= elapsed < 86400
    ensures r.Ago? && r.unit == Day <==> 86400 <= elapsed < 2592000
    ensures r.Ago? && r.unit == Month <==> 2592000 <= elapsed < 31104000
    ensures r.Ago? && r.unit == Year <==> 31104000 <= elapsed
  {
    if elapsed < 60 then JustNow
    else
      var minutes := elapsed / 60;
      if minutes < 60 then Ago(minutes, Minute)
      else
        var hours := minutes / 60;
        DivDiv(elapsed, 60, 60);
        if hours < 24 then Ago(hours, Hour)
        else
          var days := hours / 24;
          DivDiv(elapsed, 3600, 24);
          if days < 30 then Ago(days, Day)
          else
            var months := days / 30;
            DivDiv(elapsed, 86400, 30);
            if months < 12 then Ago(months, Month)
            else
              DivDiv(elapsed, 2592000, 12);
              Ago(months / 12, Year)
  }

  function Render(t: RelativeTime): string {
    match t
    case JustNow => "just now"
    case Ago(n, u) => NatToString(n) + " " + UnitName(u) + (if n > 1 then "s" else "") + " ago"
  }

  /**
   * `formatRelativeTime`, given the elapsed seconds: "just now" exactly below
   * a minute; otherwise the bucket's count in decimal, a space, the bucket's
   * unit name, an "s" exactly when the count exceeds one, and " ago". The
   * phrase ends in " ago" and `parseInt` reads it back as the count.
   */
  function FormatRelativeTime(elapsed: int): (r: string)
    ensures r == "just now" <==> elapsed < 60
    ensures elapsed >= 60 ==>
      var u := RelativeBucket(elapsed).unit;
      var n := elapsed / UnitSeconds(u);
      r == NatToString(n) + " " + UnitName(u) + (if n > 1 then "s" else "") + " ago"
    ensures elapsed >= 60 ==>
      var n := elapsed / UnitSeconds(RelativeBucket(elapsed).unit);
      && |r| >= 5 && r[|r| - 4..] == " ago"
      && (r[|r| - 5] == 's' <==> n > 1)
      && ParseInt(r) == Some(n)
  {
    var t := RelativeBucket(elapsed);
    RenderMeaning(t);
    Render(t)
  }

  /** "just now" is the phrase of no count; a count's phrase has the `AgoPhrase` shape. */
  lemma RenderMeaning(t: RelativeTime)
    ensures Render(t) == "just now" <==> t == JustNow
    ensures t.Ago? ==> var s := Render(t); var d := |NatToString(t.count)|;
      && |s| >= d + 1 + |UnitName(t.unit)|
      && s[..d] == NatToString(t.count)
      && s[d..d + 1 + |UnitName(t.unit)|] == " " + UnitName(t.unit)
      && |s| >= 5 && s[|s| - 4..] == " ago"
      && (s[|s| - 5] == 's' <==> t.count > 1)
      && ParseInt(s) == Some(t.count)
  {
    if t.Ago? {
      AgoPhrase(t.count, t.unit);
      AgoWords(t.count, t.unit);
      var s := Render(t);
      assert s[|s| - 4..] != "just now"[4..];
    }
  }

  /**
   * The phrase for `n` units: it ends in " ago", the unit is plural exactly
   * when `n` exceeds one, and `parseInt` reads the count back from it (its
   * leading words are in `AgoWords`).
   */
  lemma AgoPhrase(n: nat, u: TimeUnit)
    ensures var s := Render(Ago(n, u));
      && |s| >= 5 && s[|s| - 4..] == " ago"
      && (s[|s| - 5] == 's' <==> n > 1)
      && ParseInt(s) == Some(n)
  {
    var digits := NatToString(n);
    var word := UnitName(u) + (if n > 1 then "s" else "");
    var tail := " " + word + " ago";
    var s := Render(Ago(n, u));
    assert s == digits + tail;
    assert |word| >= 1 && (word[|word| - 1] == 's' <==> n > 1);
    assert s[|s| - 4..] == " ago" && s[|s| - 5] == word[|word| - 1];
    AgoParses(digits, tail);
    NatToStringValue(n);
  }

  /** The phrase for `n` units starts with the count's digits, a space and the unit's name. */
  lemma AgoWords(n: nat, u: TimeUnit)
    ensures var s := Render(Ago(n, u)); var d := |NatToString(n)|;
      && |s| >= d + 1 + |UnitName(u)|
      && s[..d] == NatToString(n)
      && s[d..d + 1 + |UnitName(u)|] == " " + UnitName(u)
  {
    var rest := (if n > 1 then "s" else "") + " ago";
    assert Render(Ago(n, u)) == NatToString(n) + (" " + UnitName(u)) + rest;
    ConcatParts(NatToString(n), " " + UnitName(u), rest);
  }

  /** The first two parts of a three-part concatenation are its leading slices. */
  lemma ConcatParts(a: string, b: string, c: string)
    ensures |a + b + c| >= |a| + |b|
    ensures (a + b + c)[..|a|] == a
    ensures (a + b + c)[|a|..|a| + |b|] == b
  {
  }

  lemma AgoParses(digits: string, tail: string)
    requires digits != [] && AllDigits(digits)
    requires tail != [] && tail[0] == ' '
    ensures ParseInt(digits + tail) == Some(DigitsValue(digits))
  {
    var s := digits + tail;
    assert s[0] == digits[0];
    assert IsDigit(s[0]) && !IsSpace(s[0]) && s[0] != '+' && s[0] != '-';
    assert TrimStart(s) == s;
    DigitPrefixStops(digits, tail);
    assert DigitPrefix(s) == digits;
  }

  // ---------------------------------------------------------------------
  // formatPhoneNumber (format.ts:83-98)

  /** `phone.replace(/\D/g, '')` */
  function Digits(s: string): (r: string)
    ensures AllDigits(r) && |r| <= |s|
  {
    if s == [] then [] else (if IsDigit(s[0]) then [s[0]] else []) + Digits(s[1..])
  }

  lemma {:induction false} DigitsAppend(a: string, b: string)
    ensures Digits(a + b) == Digits(a) + Digits(b)
  {
    if a != [] {
      assert (a + b)[0] == a[0];
      assert (a + b)[1..] == a[1..] + b;
      DigitsAppend(a[1..], b);
      var h := if IsDigit(a[0]) then [a[0]] else [];
      assert Digits(a + b) == h + (Digits(a[1..]) + Digits(b));
      assert Digits(a) == h + Digits(a[1..]);
    } else {
      assert a + b == b;
    }
  }

  lemma {:induction false} DigitsOfDigits(s: string)
    requires AllDigits(s)
    ensures Digits(s) == s
  {
    if s != [] {
      DigitsOfDigits(s[1..]);
      assert [s[0]] + s[1..] == s;
    }
  }

  /** Three groups separated by single spaces. */
  function Grouped(a: string, b: string, d: string): string {
    a + " " + b + " " + d
  }

  /**
   * `formatPhoneNumber`: twelve digits starting 260 become `+260 XX XXX XXXX`,
   * ten digits starting 0 become `0XX XXX XXXX`, anything else is returned
   * as it was.
   */
  function FormatPhoneNumber(phone: string): (r: string)
    ensures var c := Digits(phone);
      && (|c| == 12 && c[..3] == "260" ==> |r| == 16 && r[..5] == "+260 " && r[7] == ' ' && r[11] == ' ')
      && (|c| == 10 && c[0] == '0' ==> |r| == 12 && r[..3] == c[..3] && r[3] == ' ' && r[7] == ' ')
      && (!(|c| == 12 && c[..3] == "260") && !(|c| == 10 && c[0] == '0') ==> r == phone)
  {
    var c := Digits(phone);
    if |c| == 12 && c[..3] == "260" then "+260 " + Grouped(c[3..5], c[5..8], c[8..])
    else if |c| == 10 && c[0] == '0' then Grouped(c[..3], c[3..6], c[6..])
    else phone
  }

  /** A run of digits, a separator, and the rest: the separator contributes nothing. */
  lemma DigitsGroup(g: string, sep: string, rest: string)
    requires AllDigits(g) && forall i :: 0 <= i < |sep| ==> !IsDigit(sep[i])
    ensures Digits(g + sep + rest) == g + Digits(rest)
  {
    var gs := g + sep;
    DigitsAppend(g, sep);
    DigitsOfDigits(g);
    NoDigits(sep);
    assert Digits(gs) == g;
    DigitsAppend(gs, rest);
  }

  lemma {:induction false} NoDigits(s: string)
    requires forall i :: 0 <= i < |s| ==> !IsDigit(s[i])
    ensures Digits(s) == []
  {
    if s != [] {
      NoDigits(s[1..]);
    }
  }

  lemma LocalDigits(a: string, b: string, d: string)
    requires AllDigits(a) && AllDigits(b) && AllDigits(d)
    ensures Digits(Grouped(a, b, d)) == a + b + d
  {
    DigitsOfDigits(d);
    DigitsGroup(b, " ", d);
    DigitsGroup(a, " ", b + " " + d);
    assert a + " " + b + " " + d == a + " " + (b + " " + d);
  }

  /** The country prefix contributes its three digits. */
  lemma CountryPrefixDigits(rest: string)
    ensures Digits("+260 " + rest) == "260" + Digits(rest)
  {
    var p := "+260 ";
    DigitsAppend(p, rest);
    assert p[1..] == "260 " && p[1..][1..] == "60 " && p[1..][1..][1..] == "0 ";
    assert p[1..][1..][1..][1..] == " " && " "[1..] == [];
  }

  lemma IntlDigits(a: string, b: string, d: string)
    requires AllDigits(a) && AllDigits(b) && AllDigits(d)
    ensures Digits("+260 " + Grouped(a, b, d)) == "260" + a + b + d
  {
    LocalDigits(a, b, d);
    CountryPrefixDigits(Grouped(a, b, d));
    assert "260" + a + b + d == "260" + (a + b + d);
  }

  /** Formatting only inserts separators: the digits of the result are the digits of the input. */
  lemma FormatPhoneKeepsDigits(phone: string)
    ensures Digits(FormatPhoneNumber(phone)) == Digits(phone)
  {
    var c := Digits(phone);
    if |c| == 12 && c[..3] == "260" {
      IntlDigits(c[3..5], c[5..8], c[8..]);
      assert c == "260" + c[3..5] + c[5..8] + c[8..];
    } else if |c| == 10 && c[0] == '0' {
      LocalDigits(c[..3], c[3..6], c[6..]);
      assert c == c[..3] + c[3..6] + c[6..];
    }
  }

  /** Formatting an already formatted number changes nothing. */
  lemma FormatPhoneIdempotent(phone: string)
    ensures FormatPhoneNumber(FormatPhoneNumber(phone)) == FormatPhoneNumber(phone)
  {
    FormatPhoneKeepsDigits(phone);
  }

  // ---------------------------------------------------------------------
  // truncateText (format.ts:110-115)

  /** The end index `String.prototype.slice(0, end)` uses: negative counts from the back, clamped to [0, len]. */
  function SliceEnd(len: nat, end: int): (e: nat)
    ensures e <= len
  {
    if end < 0 then (if len + end < 0 then 0 else len + end) else if end > len then len else end
  }

  function TruncateText(text: string, maxLength: int): (r: string)
    ensures |text| <= maxLength ==> r == text
    ensures |text| > maxLength ==> |r| >= 3 && r[..|r| - 3] <= text && r[|r| - 3..] == "..."
    ensures 0 <= maxLength < |text| ==> |r| == maxLength + 3
  {
    if |text| <= maxLength then text else text[..SliceEnd(|text|, maxLength)] + "..."
  }

  /** For a non-negative limit, truncating a truncated text changes nothing. */
  lemma TruncateIdempotent(text: string, maxLength: nat)
    ensures TruncateText(TruncateText(text, maxLength), maxLength) == TruncateText(text, maxLength)
  {
    var r := TruncateText(text, maxLength);
    if |text| > maxLength {
      assert r[..maxLength] == text[..maxLength];
      assert r[..maxLength] + "..." == r;
    }
  }

  // ---------------------------------------------------------------------
  // getInitials (format.ts:120-127)

  /** `s.split(sep)`: the pieces between separators, at least one (possibly empty). */
  function Split(s: string, sep: char): (r: seq<string>)
    ensures |r| >= 1
    ensures forall i :: 0 <= i < |r| ==> sep !in r[i]
  {
    if s == [] then [[]]
    else if s[0] == sep then [[]] + Split(s[1..], sep)
    else
      var rest := Split(s[1..], sep);
      [[s[0]] + rest[0]] + rest[1..]
  }

  /** `words.join(sep)` */
  function Join(words: seq<string>, sep: char): string
    requires |words| >= 1
  {
    if |words| == 1 then words[0] else words[0] + [sep] + Join(words[1..], sep)
  }

  /** Splitting loses nothing: joining the pieces gives back the string. */
  lemma {:induction false} SplitJoin(s: string, sep: char)
    ensures Join(Split(s, sep), sep) == s
  {
    if s != [] {
      SplitJoin(s[1..], sep);
      var rest := Split(s[1..], sep);
      if s[0] == sep {
        assert Split(s, sep)[1..] == rest;
      } else {
        var r := Split(s, sep);
        assert r[0] == [s[0]] + rest[0] && r[1..] == rest[1..];
        if |rest| > 1 {
          assert Join(rest, sep) == rest[0] + [sep] + Join(rest[1..], sep);
        }
      }
    }
  }

  lemma UpperCharNotLower(c: char)
    ensures !('a' <= UpperChar(c) <= 'z')
  {
  }

  /** A piece of the split that has a first character. */
  predicate NonEmpty(w: string) {
    w != []
  }

  /**
   * `words.map(w => w[0]).join('')`: an empty word gives `undefined`, which
   * `join` writes as nothing, so the result is the first character of each
   * non-empty word, in order.
   */
  function Heads(words: seq<string>): (r: string)
    ensures |r| <= |words|
    ensures var ws := Filter(words, NonEmpty);
      |r| == |ws| && forall i :: 0 <= i < |r| ==> r[i] == ws[i][0]
  {
    if words == [] then []
    else
      var rest := Heads(words[1..]);
      if words[0] == [] then rest
      else
        assert Filter(words, NonEmpty) == [words[0]] + Filter(words[1..], NonEmpty);
        [words[0][0]] + rest
  }

  /** `getInitials`: the upper-cased first characters of the first two non-empty words. */
  function GetInitials(name: string): (r: string)
    ensures |r| <= 2
    ensures forall i :: 0 <= i < |r| ==> !('a' <= r[i] <= 'z')
    ensures var ws := Filter(Split(name, ' '), NonEmpty);
      |r| == (if |ws| < 2 then |ws| else 2) && forall i :: 0 <= i < |r| ==> r[i] == UpperChar(ws[i][0])
  {
    var words := Split(name, ' ');
    var h := Heads(words);
    var u := Upper(h);
    var k := if |u| < 2 then |u| else 2;
    forall i | 0 <= i < k ensures u[..k][i] == UpperChar(h[i]) && !('a' <= u[..k][i] <= 'z') {
      UpperCharNotLower(h[i]);
    }
    u[..k]
  }

  /** Two words give the upper-cased first letters of both; extra spaces contribute nothing. */
  lemma InitialsOfTwoWords(first: string, last: string)
    requires first != [] && last != [] && ' ' !in first && ' ' !in last
    ensures GetInitials(first + " " + last) == [UpperChar(first[0]), UpperChar(last[0])]
    ensures GetInitials(" " + first + "  " + last) == [UpperChar(first[0]), UpperChar(last[0])]
  {
    SplitLastWord(last);
    SplitTwoWords(first, last);
    SplitSpacedWords(first, last);
    assert Heads([last]) == [last[0]];
    assert Heads([[], last]) == [last[0]];
    assert Heads([first, last]) == [first[0], last[0]];
    assert Heads([[], first, [], last]) == [first[0], last[0]] by {
      assert Heads([first, [], last]) == [first[0], last[0]];
    }
    InitialsFromHeads(first + " " + last, first[0], last[0]);
    InitialsFromHeads(" " + first + "  " + last, first[0], last[0]);
  }

  lemma InitialsFromHeads(name: string, a: char, b: char)
    requires Heads(Split(name, ' ')) == [a, b]
    ensures GetInitials(name) == [UpperChar(a), UpperChar(b)]
  {
    var ws := Filter(Split(name, ' '), NonEmpty);
    var r := GetInitials(name);
    assert |ws| == 2 && ws[0][0] == a && ws[1][0] == b;
    assert |r| == 2 && r[0] == UpperChar(a) && r[1] == UpperChar(b);
  }

  /** A last word alone, and after one or two spaces. */
  lemma SplitLastWord(last: string)
    requires ' ' !in last
    ensures Split(last, ' ') == [last]
    ensures Split(" " + last, ' ') == [[], last]
    ensures Split("  " + last, ' ') == [[], [], last]
  {
    SplitWord(last, []);
    assert last + [] == last;
    SplitSpaced(last);
    SplitSpaced(" " + last);
    assert " " + (" " + last) == "  " + last;
  }

  lemma SplitTwoWords(first: string, last: string)
    requires ' ' !in first && Split(" " + last, ' ') == [[], last]
    ensures Split(first + " " + last, ' ') == [first, last]
  {
    SplitWord(first, " " + last);
    assert first + " " + last == first + (" " + last);
    assert first + [] == first;
  }

  lemma SplitSpacedWords(first: string, last: string)
    requires ' ' !in first && Split("  " + last, ' ') == [[], [], last]
    ensures Split(" " + first + "  " + last, ' ') == [[], first, [], last]
  {
    SplitWord(first, "  " + last);
    assert first + "  " + last == first + ("  " + last);
    assert first + [] == first;
    SplitSpaced(first + "  " + last);
    assert " " + first + "  " + last == " " + (first + "  " + last);
  }

  /** A word of no spaces followed by text that is empty or begins with a space. */
  lemma {:induction false} SplitWord(w: string, rest: string)
    requires ' ' !in w
    requires rest == [] || rest[0] == ' '
    ensures Split(w + rest, ' ') == [w + Split(rest, ' ')[0]] + Split(rest, ' ')[1..]
  {
    var r := Split(rest, ' ');
    if w != [] {
      assert w[0] in w;
      assert (w + rest)[0] == w[0] != ' ';
      assert (w + rest)[1..] == w[1..] + rest;
      SplitWord(w[1..], rest);
      var tail := Split(w[1..] + rest, ' ');
      assert tail[0] == w[1..] + r[0] && tail[1..] == r[1..];
      assert [w[0]] + (w[1..] + r[0]) == w + r[0];
    } else {
      assert w + rest == rest && w + r[0] == r[0];
      assert [r[0]] + r[1..] == r;
    }
  }

  lemma SplitSpaced(rest: string)
    ensures Split(" " + rest, ' ') == [[]] + Split(rest, ' ')
  {
    assert (" " + rest)[1..] == rest;
  }
}
