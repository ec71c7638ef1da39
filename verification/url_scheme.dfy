/** The part of WHATWG URL parsing that decides whether `new URL(input)`, called without a
    base URL, finds a scheme. Without a scheme and without a base the parser fails, so the
    constructor throws a `TypeError`. Leading C0 controls and spaces are trimmed first, and
    ASCII tabs and newlines are removed everywhere; a scheme is then an ASCII letter followed
    by letters, digits, `+`, `-` or `.`, up to a `:`. */
module UrlScheme {

  /** C0 control characters and the space, which the parser trims from the input's ends. */
  predicate IsC0ControlOrSpace(c: char)
  {
    c <= ' '
  }

  /** ASCII tab, line feed and carriage return, which the parser removes everywhere. */
  predicate IsTabOrNewline(c: char)
  {
    c == '\t' || c == '\n' || c == '\r'
  }

  predicate IsAsciiAlpha(c: char)
  {
    ('a' <= c <= 'z') || ('A' <= c <= 'Z')
  }

  /** Characters allowed after the first one of a scheme. */
  predicate IsSchemeChar(c: char)
  {
    IsAsciiAlpha(c) || ('0' <= c <= '9') || c == '+' || c == '-' || c == '.'
  }

  /** The input without its leading C0 controls and spaces. */
  function TrimLeading(s: string): (t: string)
    ensures |t| <= |s| && t == s[|s| - |t|..]
    ensures forall k :: 0 <= k < |s| - |t| ==> IsC0ControlOrSpace(s[k])
    ensures |t| > 0 ==> !IsC0ControlOrSpace(t[0])
    decreases |s|
  {
    if |s| > 0 && IsC0ControlOrSpace(s[0]) then TrimLeading(s[1..]) else s
  }

  /** The input with every ASCII tab and newline removed, the rest in order. */
  function RemoveTabsAndNewlines(s: string): (t: string)
    ensures |t| <= |s|
    ensures forall k :: 0 <= k < |t| ==> !IsTabOrNewline(t[k])
    ensures (forall k :: 0 <= k < |s| ==> !IsTabOrNewline(s[k])) ==> t == s
    ensures forall k :: 0 <= k < |s| && !IsTabOrNewline(s[k]) ==> s[k] in t
    ensures forall k :: 0 <= k < |t| ==> t[k] in s
    decreases |s|
  {
    if |s| == 0 then []
    else if IsTabOrNewline(s[0]) then RemoveTabsAndNewlines(s[1..])
    else [s[0]] + RemoveTabsAndNewlines(s[1..])
  }

  /** Removing characters adds none: whatever the cleaned text holds, the input holds. */
  lemma {:induction false} RemoveKeepsCharacters(s: string, c: char)
    requires c in RemoveTabsAndNewlines(s)
    ensures c in s
    decreases |s|
  {
    if !IsTabOrNewline(s[0]) && c == s[0] {
    } else {
      RemoveKeepsCharacters(s[1..], c);
    }
  }

  /** Removing tabs and newlines from a concatenation removes them from each part. */
  lemma {:induction false} RemoveConcat(u: string, v: string)
    ensures RemoveTabsAndNewlines(u + v) == RemoveTabsAndNewlines(u) + RemoveTabsAndNewlines(v)
    decreases |u|
  {
    if |u| == 0 {
      assert u + v == v;
    } else {
      assert (u + v)[0] == u[0];
      assert (u + v)[1..] == u[1..] + v;
      RemoveConcat(u[1..], v);
    }
  }

  /** From position `i` on, scheme characters continue up to a `:`. */
  predicate SchemeRest(t: string, i: nat)
    decreases |t| - i
  {
    i < |t| && (t[i] == ':' || (IsSchemeChar(t[i]) && SchemeRest(t, i + 1)))
  }

  /** The cleaned-up input starts with a scheme followed by `:`. */
  predicate StartsWithScheme(t: string)
  {
    |t| > 0 && IsAsciiAlpha(t[0]) && SchemeRest(t, 1)
  }

  /** Whether the URL parser, without a base URL, finds a scheme in `input`; when it does
      not, `new URL(input)` throws. */
  predicate HasScheme(input: string)
  {
    StartsWithScheme(RemoveTabsAndNewlines(TrimLeading(input)))
  }

  /** A scheme ends at a `:`, so the cleaned-up text holds one. */
  lemma {:induction false} SchemeRestHasColon(t: string, i: nat) returns (j: nat)
    requires SchemeRest(t, i)
    ensures i <= j < |t| && t[j] == ':'
    decreases |t| - i
  {
    if t[i] == ':' {
      j := i;
    } else {
      j := SchemeRestHasColon(t, i + 1);
    }
  }

  /** Text without a colon, such as the empty string or a relative path, has no scheme. */
  lemma NoColonNoScheme(input: string)
    requires ':' !in input
    ensures !HasScheme(input)
  {
    var trimmed := TrimLeading(input);
    var t := RemoveTabsAndNewlines(trimmed);
    if StartsWithScheme(t) {
      var j := SchemeRestHasColon(t, 1);
      RemoveKeepsCharacters(trimmed, ':');
    }
  }

  /** An input that starts with letters up to a `:` has a scheme, whatever follows. */
  lemma SchemeAt(input: string, n: nat)
    requires 1 <= n < |input| && input[n] == ':'
    requires forall k :: 0 <= k < n ==> IsAsciiAlpha(input[k])
    ensures HasScheme(input)
  {
    assert TrimLeading(input) == input;
    CleanPrefixKept(input, n + 1);
    SchemeLettersKept(input, RemoveTabsAndNewlines(input), n);
  }

  /** A prefix without tabs or newlines survives their removal unchanged. */
  lemma CleanPrefixKept(input: string, m: nat)
    requires m <= |input|
    requires forall k :: 0 <= k < m ==> !IsTabOrNewline(input[k])
    ensures var t := RemoveTabsAndNewlines(input);
      m <= |t| && t[..m] == input[..m]
  {
    var head := input[..m];
    var tail := input[m..];
    assert input == head + tail;
    RemoveConcat(head, tail);
    assert forall k :: 0 <= k < |head| ==> !IsTabOrNewline(head[k]);
  }

  /** Letters up to a colon at `n`, copied into `t`, make `t` start with a scheme. */
  lemma SchemeLettersKept(input: string, t: string, n: nat)
    requires 1 <= n < |input| && input[n] == ':'
    requires forall k :: 0 <= k < n ==> IsAsciiAlpha(input[k])
    requires n + 1 <= |t| && t[..n + 1] == input[..n + 1]
    ensures StartsWithScheme(t)
  {
    assert t[0] == input[0] && t[n] == input[n] by {
      assert t[0] == t[..n + 1][0] && t[n] == t[..n + 1][n];
    }
    forall k | 1 <= k < n ensures IsAsciiAlpha(t[k]) {
      assert t[k] == t[..n + 1][k];
    }
    SchemeLetters(t, n, 1);
  }

  /** Letters from `i` up to a colon at `n` make `SchemeRest(t, i)` hold. */
  lemma {:induction false} SchemeLetters(t: string, n: nat, i: nat)
    requires i <= n < |t| && t[n] == ':'
    requires forall k :: i <= k < n ==> IsAsciiAlpha(t[k])
    ensures SchemeRest(t, i)
    decreases n - i
  {
    if i < n {
      SchemeLetters(t, n, i + 1);
    }
  }

  /** Realms starting with `http:` or `https:` have a scheme. */
  lemma HttpSchemes(input: string)
    requires |input| >= 6 && input[0] == 'h' && input[1] == 't' && input[2] == 't' && input[3] == 'p'
    requires input[4] == ':' || (input[4] == 's' && input[5] == ':')
    ensures HasScheme(input)
  {
    if input[4] == ':' {
      SchemeAt(input, 4);
    } else {
      SchemeAt(input, 5);
    }
  }
}
