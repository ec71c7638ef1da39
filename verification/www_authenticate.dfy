/** The positional `WWW-Authenticate` parser. The source matches the global pattern
    `(?<=\=")(?:\\.|[^"\\])*(?=")`: a value starts right after `="`, runs over
    characters other than `"` and `\` and over backslash escapes (kept verbatim), and must
    be followed by `"`. The first value is the realm, the second the service; attribute
    names are never looked at. */
module WwwAuthenticate {
  import opened Wrappers

  /** The challenge fields read from the header (the source's `Authenticate`). */
  datatype Challenge = Challenge(realm: string, service: string)

  /** The header held fewer than two quoted values. */
  datatype ParseError = InvalidHeader(header: string)

  /** Characters a regular-expression `.` does not match. */
  predicate IsLineTerminator(c: char)
  {
    c == '\n' || c == '\r' || c == '\U{2028}' || c == '\U{2029}'
  }

  /** Text the value part of the pattern matches as a whole: a sequence of characters other
      than `"` and `\`, and of backslashes each followed by a non-line-terminator. */
  predicate EscapedText(v: string)
    decreases |v|
  {
    if |v| == 0 then true
    else if v[0] == '\\' then 2 <= |v| && !IsLineTerminator(v[1]) && EscapedText(v[2..])
    else v[0] != '"' && EscapedText(v[1..])
  }

  /** The look-behind: the two characters before position `p` are `="`. */
  predicate Opens(s: string, p: nat)
  {
    2 <= p <= |s| && s[p - 2] == '=' && s[p - 1] == '"'
  }

  /** Where the greedy value part starting at `p` stops. */
  function ValueEnd(s: string, p: nat): (q: nat)
    requires p <= |s|
    ensures p <= q <= |s|
    ensures q == |s| || s[q] == '"' || s[q] == '\\'
    ensures EscapedText(s[p..q])
    ensures q < |s| && s[q] == '\\' ==> q + 1 == |s| || IsLineTerminator(s[q + 1])
    decreases |s| - p
  {
    if p == |s| || s[p] == '"' then p
    else if s[p] == '\\' then
      if p + 1 < |s| && !IsLineTerminator(s[p + 1]) then
        var q := ValueEnd(s, p + 2);
        assert s[p..q][2..] == s[p + 2..q];
        q
      else p
    else
      var q := ValueEnd(s, p + 1);
      assert s[p..q][1..] == s[p + 1..q];
      q
  }

  /** A match of the whole pattern starts at `p`: the look-behind holds and the value part is
      followed by `"` (backtracking never finds a shorter value followed by `"`). */
  predicate MatchAt(s: string, p: nat)
  {
    Opens(s, p) && ValueEnd(s, p) < |s| && s[ValueEnd(s, p)] == '"'
  }

  /** The global match from position `i` on: after a match the search resumes at its end,
      one further on when the match was empty. */
  function Scan(s: string, i: nat): (values: seq<string>)
    ensures forall k :: 0 <= k < |values| ==> EscapedText(values[k])
    decreases |s| + 1 - i
  {
    if i > |s| then []
    else if MatchAt(s, i) then
      var q := ValueEnd(s, i);
      [s[i..q]] + Scan(s, if q == i then i + 1 else q)
    else Scan(s, i + 1)
  }

  /** `authenticateStr.match(WWW_AUTHENTICATE_PATTERN)`, with no match as the empty list. */
  function Matches(header: string): (values: seq<string>)
    ensures forall k :: 0 <= k < |values| ==> EscapedText(values[k])
  {
    Scan(header, 0)
  }

  /** A header without a double quote has no match, so it always fails to parse. */
  lemma NoQuoteNoMatches(header: string)
    requires '"' !in header
    ensures Matches(header) == []
    ensures ParseAuthenticate(header) == Failure(InvalidHeader(header))
  {
    ScanSkip(header, 0, |header| + 1);
  }

  /** `parseAuthenticate`: fails unless at least two values were matched; realm and service
      are the first two, later values are ignored. */
  function ParseAuthenticate(header: string): (r: Result<Challenge, ParseError>)
    ensures r.Failure? <==> |Matches(header)| < 2
    ensures r.Failure? ==> r.error == InvalidHeader(header)
    ensures r.Success? ==> r.value == Challenge(Matches(header)[0], Matches(header)[1])
    ensures r.Success? ==> EscapedText(r.value.realm) && EscapedText(r.value.service)
  {
    var matches := Matches(header);
    if |matches| < 2 then Failure(InvalidHeader(header))
    else Success(Challenge(matches[0], matches[1]))
  }

  /** Text with neither a double quote nor a backslash. */
  predicate Plain(v: string)
  {
    forall k :: 0 <= k < |v| ==> v[k] != '"' && v[k] != '\\'
  }

  /** A header with two quoted attributes: `<lead>="<first>"<middle>="<second>"`. */
  function Header(lead: string, first: string, middle: string, second: string): string
  {
    lead + "=\"" + first + "\"" + middle + "=\"" + second + "\""
  }

  /** Positions without a look-behind match do not change the scan. */
  lemma {:induction false} ScanSkip(s: string, i: nat, j: nat)
    requires i <= j
    requires forall p :: i <= p < j ==> !Opens(s, p)
    ensures Scan(s, i) == Scan(s, j)
    decreases j - i
  {
    if i < j {
      ScanSkip(s, i + 1, j);
    }
  }

  /** Plain text is escaped text. */
  lemma {:induction false} PlainIsEscaped(v: string)
    requires Plain(v)
    ensures EscapedText(v)
    decreases |v|
  {
    if |v| > 0 {
      assert Plain(v[1..]) by {
        forall k | 0 <= k < |v[1..]| ensures v[1..][k] != '"' && v[1..][k] != '\\' {
          assert v[1..][k] == v[k + 1];
        }
      }
      PlainIsEscaped(v[1..]);
    }
  }

  /** Escaped text followed by escaped text is escaped text. */
  lemma {:induction false} EscapedConcat(u: string, v: string)
    requires EscapedText(u) && EscapedText(v)
    ensures EscapedText(u + v)
    decreases |u|
  {
    if |u| == 0 {
      assert u + v == v;
    } else {
      assert (u + v)[0] == u[0];
      if u[0] == '\\' {
        assert (u + v)[1] == u[1];
        assert (u + v)[2..] == u[2..] + v;
        EscapedConcat(u[2..], v);
      } else {
        assert (u + v)[1..] == u[1..] + v;
        EscapedConcat(u[1..], v);
      }
    }
  }

  /** Inside escaped text every double quote is the second half of a backslash escape. */
  lemma {:induction false} EscapedQuoteFollowsBackslash(v: string, i: nat)
    requires EscapedText(v) && i < |v| && v[i] == '"'
    ensures 1 <= i && v[i - 1] == '\\'
    decreases |v|
  {
    if v[0] == '\\' {
      if i >= 2 {
        EscapedQuoteFollowsBackslash(v[2..], i - 2);
      }
    } else {
      EscapedQuoteFollowsBackslash(v[1..], i - 1);
    }
  }

  /** The greedy value part runs over any escaped text up to a closing quote: it neither stops
      early at an escaped quote nor runs past the quote. */
  lemma {:induction false} ValueEndEscaped(s: string, p: nat, q: nat)
    requires p <= q < |s| && s[q] == '"'
    requires EscapedText(s[p..q])
    ensures ValueEnd(s, p) == q
    decreases q - p
  {
    if p < q {
      if s[p] == '\\' {
        assert s[p..q][2..] == s[p + 2..q];
        ValueEndEscaped(s, p + 2, q);
      } else {
        assert s[p..q][1..] == s[p + 1..q];
        ValueEndEscaped(s, p + 1, q);
      }
    }
  }

  /** An escaped value between `="` and `"` is matched, and the scan resumes after it. */
  lemma ScanEscapedValue(s: string, p: nat, q: nat)
    requires Opens(s, p)
    requires p <= q < |s| && s[q] == '"'
    requires EscapedText(s[p..q])
    ensures Scan(s, p) == [s[p..q]] + Scan(s, if q == p then p + 1 else q)
  {
    ValueEndEscaped(s, p, q);
  }

  /** The index layout of `Header(lead, first, middle, second)`. */
  lemma HeaderLayout(lead: string, first: string, middle: string, second: string)
    ensures var s := Header(lead, first, middle, second);
      var a := |lead| + 2;
      var c := a + |first|;
      var b := c + 1 + |middle| + 2;
      && |s| == b + |second| + 1
      && (forall k :: 0 <= k < |lead| ==> s[k] == lead[k])
      && s[a - 2] == '=' && s[a - 1] == '"'
      && (forall k :: a <= k < c ==> s[k] == first[k - a])
      && s[c] == '"'
      && (forall k :: c + 1 <= k < b - 2 ==> s[k] == middle[k - c - 1])
      && s[b - 2] == '=' && s[b - 1] == '"'
      && (forall k :: b <= k < b + |second| ==> s[k] == second[k - b])
      && s[b + |second|] == '"'
  {
  }

  /** The three texts of `Header(lead, first, middle, second)` sit between its quotes. */
  lemma HeaderValues(lead: string, first: string, middle: string, second: string)
    ensures var s := Header(lead, first, middle, second);
      var a := |lead| + 2;
      var c := a + |first|;
      var b := c + 1 + |middle| + 2;
      && |s| == b + |second| + 1
      && s[a..c] == first
      && s[c + 1..b - 2] == middle
      && s[c + 1..b - 1] == middle + "="
      && s[b..b + |second|] == second
  {
    var s := Header(lead, first, middle, second);
    var a := |lead| + 2;
    var c := a + |first|;
    var b := c + 1 + |middle| + 2;
    assert s == (lead + "=\"") + first + ("\"" + middle + "=\"") + second + "\"";
    assert s[a..c] == first;
    assert s[c..b] == "\"" + middle + "=\"";
    assert s[c + 1..b - 2] == s[c..b][1..|middle| + 1];
    assert s[c + 1..b - 1] == s[c..b][1..|middle| + 2];
    assert s[b..b + |second|] == second;
  }

  /** Two escaped values, each opened by `="` and closed by `"`, with no look-behind match
      before the first or between them, are parsed as realm and service. */
  lemma ParseTwoValues(s: string, a: nat, c: nat, b: nat, d: nat)
    requires forall p :: 0 <= p < a ==> !Opens(s, p)
    requires Opens(s, a) && a <= c < |s| && s[c] == '"'
    requires EscapedText(s[a..c])
    requires (if c == a then a + 1 else c) <= b
    requires forall p :: (if c == a then a + 1 else c) <= p < b ==> !Opens(s, p)
    requires Opens(s, b) && b <= d < |s| && s[d] == '"'
    requires EscapedText(s[b..d])
    ensures ParseAuthenticate(s) == Success(Challenge(s[a..c], s[b..d]))
  {
    ScanSkip(s, 0, a);
    ScanEscapedValue(s, a, c);
    ScanSkip(s, if c == a then a + 1 else c, b);
    ScanEscapedValue(s, b, d);
  }

  /** Parsing a header whose two values are escaped text, with no double quote elsewhere,
      yields those values positionally and verbatim, provided the first value does not end
      in `=`. */
  lemma ParseHeader(lead: string, first: string, middle: string, second: string)
    requires '"' !in lead && '"' !in middle
    requires EscapedText(first) && EscapedText(second)
    requires |first| == 0 || first[|first| - 1] != '='
    ensures ParseAuthenticate(Header(lead, first, middle, second)) == Success(Challenge(first, second))
  {
    var s := Header(lead, first, middle, second);
    var a := |lead| + 2;
    var c := a + |first|;
    var b := c + 1 + |middle| + 2;
    var d := b + |second|;
    assert QuoteClosesEscape(first) by {
      if |first| > 0 && first[|first| - 1] == '"' {
        EscapedQuoteFollowsBackslash(first, |first| - 1);
      }
    }
    assert s[a..c] == first && s[b..d] == second && d < |s| by {
      HeaderValues(lead, first, middle, second);
    }
    HeaderLeadOpeners(lead, first, middle, second);
    HeaderMiddleOpeners(lead, first, middle, second);
    ParseTwoValues(s, a, c, b, d);
  }

  /** A challenge laid out as `Bearer realm="<realm>",service="<service>"` parses into its
      realm and service. */
  lemma ParseChallengeHeader(realm: string, service: string)
    requires EscapedText(realm) && EscapedText(service) && (|realm| == 0 || realm[|realm| - 1] != '=')
    ensures ParseAuthenticate(Header("Bearer realm", realm, ",service", service))
         == Success(Challenge(realm, service))
  {
    ParseHeader("Bearer realm", realm, ",service", service);
  }

  /** `ParseHeader` for values with neither quote nor backslash. */
  lemma ParsePlainHeader(lead: string, first: string, middle: string, second: string)
    requires '"' !in lead && '"' !in middle
    requires Plain(first) && Plain(second)
    requires |first| == 0 || first[|first| - 1] != '='
    ensures ParseAuthenticate(Header(lead, first, middle, second)) == Success(Challenge(first, second))
  {
    PlainIsEscaped(first);
    PlainIsEscaped(second);
    ParseHeader(lead, first, middle, second);
  }

  /** A value's last character is a quote only as the second half of an escape. */
  predicate QuoteClosesEscape(v: string)
  {
    |v| > 0 && v[|v| - 1] == '"' ==> |v| >= 2 && v[|v| - 2] == '\\'
  }

  /** In `Header(lead, first, middle, second)` the first look-behind match is the start of the
      first value. */
  lemma HeaderLeadOpeners(lead: string, first: string, middle: string, second: string)
    requires '"' !in lead
    ensures var s := Header(lead, first, middle, second);
      var a := |lead| + 2;
      && (forall p :: 0 <= p < a ==> !Opens(s, p))
      && Opens(s, a)
  {
    var s := Header(lead, first, middle, second);
    var a := |lead| + 2;
    assert s[..a] == lead + "=\"";
    forall p | 0 <= p < a ensures !Opens(s, p) {
      if 1 <= p <= |lead| {
        assert s[p - 1] == s[..a][p - 1] == lead[p - 1];
      }
    }
  }

  /** In `Header(lead, first, middle, second)`, after the first value, the next look-behind
      match is the start of the second value, provided the first value ends neither in `=`
      nor in an unescaped quote. */
  lemma HeaderMiddleOpeners(lead: string, first: string, middle: string, second: string)
    requires '"' !in middle
    requires QuoteClosesEscape(first)
    requires |first| == 0 || first[|first| - 1] != '='
    ensures var s := Header(lead, first, middle, second);
      var a := |lead| + 2;
      var c := a + |first|;
      var b := c + 1 + |middle| + 2;
      && s[c] == '"'
      && (forall p :: (if c == a then a + 1 else c) <= p < b ==> !Opens(s, p))
      && Opens(s, b) && s[b + |second|] == '"'
  {
    var s := Header(lead, first, middle, second);
    var a := |lead| + 2;
    var c := a + |first|;
    var b := c + 1 + |middle| + 2;
    HeaderLayout(lead, first, middle, second);
    assert forall k :: c < k < b - 2 ==> s[k] != '"' by {
      forall k | c < k < b - 2 ensures s[k] != '"' {
        assert s[k] == middle[k - c - 1];
      }
    }
    assert s[c - 1] != '=' && (c > a && s[c - 1] == '"' ==> s[c - 2] == '\\') by {
      if c > a {
        assert s[c - 1] == first[|first| - 1];
        if s[c - 1] == '"' {
          assert s[c - 2] == first[|first| - 2];
        }
      }
    }
    MiddleOpenersAt(s, a, c, b);
  }

  /** The character-level argument behind `HeaderMiddleOpeners`: between a closing quote at `c`
      and an `="` ending at `b`, with no quote in between, nothing opens a value. */
  lemma MiddleOpenersAt(s: string, a: nat, c: nat, b: nat)
    requires 2 <= a <= c && c + 3 <= b <= |s|
    requires s[a - 1] == '"' && s[c] == '"' && s[c - 1] != '='
    requires c > a && s[c - 1] == '"' ==> s[c - 2] == '\\'
    requires forall k :: c < k < b - 2 ==> s[k] != '"'
    requires s[b - 2] == '=' && s[b - 1] == '"'
    ensures forall p :: (if c == a then a + 1 else c) <= p < b ==> !Opens(s, p)
    ensures Opens(s, b)
  {
    forall p | (if c == a then a + 1 else c) <= p < b ensures !Opens(s, p) {
      if p == c {
        assert s[p - 1] != '"' || s[p - 2] != '=';
      } else if p == c + 1 {
        assert s[p - 2] != '=';
      } else {
        assert s[p - 1] != '"';
      }
    }
  }

  /** Attribute names are never checked: a header naming `service` first has its service
      value read as the realm. */
  lemma NamesAreIgnored(first: string, second: string)
    requires EscapedText(first) && EscapedText(second)
    requires |first| == 0 || first[|first| - 1] != '='
    ensures ParseAuthenticate(Header("Bearer service", first, ",realm", second)) == Success(Challenge(first, second))
  {
    ParseHeader("Bearer service", first, ",realm", second);
  }

  /** An escaped quote inside a value does not end it: the value, backslash included, is
      returned verbatim. */
  lemma EscapedQuoteKept(x: string, y: string, service: string)
    requires Plain(x) && Plain(y) && Plain(service)
    requires |y| == 0 || y[|y| - 1] != '='
    ensures ParseAuthenticate(Header("Bearer realm", x + "\\\"" + y, ",service", service))
         == Success(Challenge(x + "\\\"" + y, service))
  {
    var first := x + "\\\"" + y;
    PlainIsEscaped(x);
    PlainIsEscaped(y);
    PlainIsEscaped(service);
    assert EscapedText("\\\"" + y) by {
      assert ("\\\"" + y)[2..] == y;
    }
    EscapedConcat(x, "\\\"" + y);
    assert first == x + ("\\\"" + y);
    assert first[|first| - 1] == (if |y| == 0 then '"' else y[|y| - 1]);
    ParseHeader("Bearer realm", first, ",service", service);
  }

  /** Plain text followed by `=` is escaped text. */
  lemma EqualsAppendedEscaped(middle: string)
    requires Plain(middle)
    ensures EscapedText(middle + "=")
  {
    PlainIsEscaped(middle);
    assert EscapedText("=");
    EscapedConcat(middle, "=");
  }

  /** A first value ending in `=` makes its closing quote open the second value. */
  lemma ParseAfterEquals(s: string, a: nat, c: nat, d: nat)
    requires forall p :: 0 <= p < a ==> !Opens(s, p)
    requires Opens(s, a) && a < c && c + 1 <= d < |s| && s[d] == '"'
    requires s[c - 1] == '=' && s[c] == '"'
    requires EscapedText(s[a..c]) && EscapedText(s[c + 1..d])
    ensures ParseAuthenticate(s) == Success(Challenge(s[a..c], s[c + 1..d]))
  {
    ParseTwoValues(s, a, c, c + 1, d);
  }

  /** When the first value ends in `=`, its closing quote is itself read as an opening quote,
      so the second value is the text between the first value and the next quote. */
  lemma EqualsBeforeQuoteShiftsService(lead: string, first: string, middle: string, second: string)
    requires '"' !in lead && Plain(middle)
    requires Plain(first) && |first| > 0 && first[|first| - 1] == '='
    ensures ParseAuthenticate(Header(lead, first, middle, second)) == Success(Challenge(first, middle + "="))
  {
    var a := |lead| + 2;
    var c := a + |first|;
    var d := c + 1 + |middle| + 1;
    PlainIsEscaped(first);
    ShiftedHeaderLayout(lead, first, middle, second);
    ParseAfterEquals(Header(lead, first, middle, second), a, c, d);
  }

  /** The facts `ParseAfterEquals` needs about a header whose first value ends in `=`. */
  lemma ShiftedHeaderLayout(lead: string, first: string, middle: string, second: string)
    requires '"' !in lead && Plain(middle)
    requires EscapedText(first) && |first| > 0 && first[|first| - 1] == '='
    ensures var s := Header(lead, first, middle, second);
      var a := |lead| + 2;
      var c := a + |first|;
      var d := c + 1 + |middle| + 1;
      && (forall p :: 0 <= p < a ==> !Opens(s, p))
      && Opens(s, a) && a < c && c + 1 <= d < |s| && s[d] == '"'
      && s[c - 1] == '=' && s[c] == '"'
      && s[a..c] == first && s[c + 1..d] == middle + "="
      && EscapedText(s[a..c]) && EscapedText(s[c + 1..d])
  {
    var s := Header(lead, first, middle, second);
    var a := |lead| + 2;
    var c := a + |first|;
    var b := c + 1 + |middle| + 2;
    assert forall p :: 0 <= p < a ==> !Opens(s, p) by {
      HeaderLayout(lead, first, middle, second);
      forall p | 0 <= p < a ensures !Opens(s, p) {
        if 1 <= p <= |lead| {
          assert s[p - 1] == lead[p - 1];
        }
      }
    }
    assert Opens(s, a) && a < c && c + 1 < b - 1 < |s| && s[b - 1] == '"' && s[c - 1] == '=' && s[c] == '"' by {
      HeaderLayout(lead, first, middle, second);
      assert s[c - 1] == first[|first| - 1];
    }
    assert s[a..c] == first && s[c + 1..b - 1] == middle + "=" by {
      HeaderValues(lead, first, middle, second);
    }
    EqualsAppendedEscaped(middle);
  }
}
