/**
 * What the two chat pages share: the message record they append to their log,
 * and the normalisation `input.trim().toLowerCase()` applied to typed input
 * before it is matched against a command table.
 */
module ChatText {
  import opened Wrappers

  datatype Sender = User | Bot

  /** One entry of a chat log; the URLs are present only on some bot replies. */
  datatype Message = Message(sender: Sender, content: string, imageUrl: Option<string>, audioUrl: Option<string>)

  function UserText(content: string): Message { Message(User, content, None, None) }

  function BotText(content: string): Message { Message(Bot, content, None, None) }

  /** The characters `String.prototype.trim` removes: ECMAScript WhiteSpace and LineTerminator. */
  predicate IsSpace(c: char) {
    || c == '\t' || c == '\n' || c == '\U{000B}' || c == '\U{000C}' || c == '\r' || c == ' '
    || c == '\U{00A0}' || c == '\U{1680}' || ('\U{2000}' <= c <= '\U{200A}')
    || c == '\U{2028}' || c == '\U{2029}' || c == '\U{202F}' || c == '\U{205F}'
    || c == '\U{3000}' || c == '\U{FEFF}'
  }

  /** `s` with its leading white space removed. */
  function TrimStart(s: string): (r: string)
    ensures |r| <= |s| && r == s[|s| - |r|..]
    ensures forall i :: 0 <= i < |s| - |r| ==> IsSpace(s[i])
    ensures r == [] || !IsSpace(r[0])
  {
    if s != [] && IsSpace(s[0]) then TrimStart(s[1..]) else s
  }

  /** `s` with its trailing white space removed. */
  function TrimEnd(s: string): (r: string)
    ensures |r| <= |s| && r == s[..|r|]
    ensures forall i :: |r| <= i < |s| ==> IsSpace(s[i])
    ensures r == [] || !IsSpace(r[|r| - 1])
  {
    if s != [] && IsSpace(s[|s| - 1]) then TrimEnd(s[..|s| - 1]) else s
  }

  /** `s.trim()`. */
  function Trim(s: string): string { TrimEnd(TrimStart(s)) }

  /** `s.trim()` is empty exactly when `s` is nothing but white space: the test `!input.trim()`. */
  lemma TrimEmptyIffBlank(s: string)
    ensures Trim(s) == [] <==> forall i :: 0 <= i < |s| ==> IsSpace(s[i])
  {
  }

  lemma {:induction false} TrimStartPadded(pre: string, u: string)
    requires forall i :: 0 <= i < |pre| ==> IsSpace(pre[i])
    requires u == [] || !IsSpace(u[0])
    ensures TrimStart(pre + u) == u
  {
    if pre == [] {
      assert pre + u == u;
    } else {
      assert (pre + u)[1..] == pre[1..] + u;
      TrimStartPadded(pre[1..], u);
    }
  }

  lemma {:induction false} TrimEndPadded(u: string, post: string)
    requires forall i :: 0 <= i < |post| ==> IsSpace(post[i])
    requires u == [] || !IsSpace(u[|u| - 1])
    ensures TrimEnd(u + post) == u
  {
    if post == [] {
      assert u + post == u;
    } else {
      assert (u + post)[..|u + post| - 1] == u + post[..|post| - 1];
      TrimEndPadded(u, post[..|post| - 1]);
    }
  }

  /** White space around a text with no white space at its edges is exactly what `trim` removes. */
  lemma TrimPadded(pre: string, t: string, post: string)
    requires forall i :: 0 <= i < |pre| ==> IsSpace(pre[i])
    requires forall i :: 0 <= i < |post| ==> IsSpace(post[i])
    requires t == [] || (!IsSpace(t[0]) && !IsSpace(t[|t| - 1]))
    ensures Trim(pre + t + post) == t
  {
    var s := pre + t + post;
    if t == [] {
      assert forall i :: 0 <= i < |s| ==> IsSpace(s[i]) by {
        assert s == pre + post;
      }
      TrimEmptyIffBlank(s);
    } else {
      assert s == pre + (t + post);
      TrimStartPadded(pre, t + post);
      TrimEndPadded(t, post);
    }
  }

  /**
   * Upper-case ASCII letters become lower case, and so does U+212A KELVIN SIGN,
   * the one other character whose lower case is an ASCII letter ('k'); every
   * other character is kept.
   */
  function LowerChar(c: char): char {
    if 'A' <= c <= 'Z' then (c as int + 32) as char
    else if c == '\U{212A}' then 'k'
    else c
  }

  /** `s.toLowerCase()`, on the characters whose lower case is ASCII. */
  function ToLower(s: string): string {
    seq(|s|, i requires 0 <= i < |s| => LowerChar(s[i]))
  }

  /** `input.trim().toLowerCase()`: how both chat pages read a typed command. */
  function Normalise(s: string): string { ToLower(Trim(s)) }

  lemma LowerCharKeepsSpace(c: char)
    ensures IsSpace(LowerChar(c)) <==> IsSpace(c)
  {
  }

  /** A lowered character is no upper-case ASCII letter, and lowering it again keeps it. */
  lemma LowerCharLower(c: char)
    ensures !('A' <= LowerChar(c) <= 'Z') && LowerChar(LowerChar(c)) == LowerChar(c)
  {
  }

  /** Lowered text has no upper-case ASCII letter, and lowering it again keeps it. */
  lemma ToLowerLower(t: string)
    ensures ToLower(ToLower(t)) == ToLower(t)
    ensures forall i :: 0 <= i < |ToLower(t)| ==> !('A' <= ToLower(t)[i] <= 'Z')
  {
    var n := ToLower(t);
    forall i | 0 <= i < |n| ensures LowerChar(n[i]) == n[i] && !('A' <= n[i] <= 'Z') {
      LowerCharLower(t[i]);
    }
  }

  /** No white space at either end. */
  predicate Trimmed(t: string) {
    t == [] || (!IsSpace(t[0]) && !IsSpace(t[|t| - 1]))
  }

  /** `trim()` leaves no white space at either end. */
  lemma TrimIsTrimmed(s: string)
    ensures Trimmed(Trim(s))
  {
    var u := TrimStart(s);
    var t := TrimEnd(u);
    if t != [] {
      assert t[0] == u[0];
    }
  }

  /** Lowering keeps the ends free of white space. */
  lemma ToLowerKeepsTrimmed(t: string)
    requires Trimmed(t)
    ensures Trimmed(ToLower(t))
  {
    if t != [] {
      LowerCharKeepsSpace(t[0]);
      LowerCharKeepsSpace(t[|t| - 1]);
    }
  }

  /** Text with no white space at either end is its own trim. */
  lemma TrimTrimmed(n: string)
    requires Trimmed(n)
    ensures Trim(n) == n
  {
    TrimPadded([], n, []);
    assert [] + n + [] == n;
  }

  /** A normalised command is trimmed, lower case, and normalising it again changes nothing. */
  lemma NormaliseIdempotent(s: string)
    ensures Normalise(Normalise(s)) == Normalise(s)
    ensures forall i :: 0 <= i < |Normalise(s)| ==> !('A' <= Normalise(s)[i] <= 'Z')
  {
    TrimIsTrimmed(s);
    ToLowerKeepsTrimmed(Trim(s));
    TrimTrimmed(Normalise(s));
    ToLowerLower(Trim(s));
  }
}
