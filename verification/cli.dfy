/** The command-line decisions both scanners make before any scan: the
    confirmation prompt, which accepts an answer only when it reads "y" or
    "yes" after input().strip().lower(), and Python truthiness of an
    optional argument. */
module Cli {
  import opened Common

  /** The characters str.strip() removes: Python's Unicode whitespace. */
  predicate IsSpace(c: char)
  {
    || c == ' '
    || ('\t' <= c <= '\r')
    || ('\U{1C}' <= c <= '\U{1F}')
    || c == '\U{85}' || c == '\U{A0}' || c == '\U{1680}'
    || ('\U{2000}' <= c <= '\U{200A}')
    || c == '\U{2028}' || c == '\U{2029}' || c == '\U{202F}' || c == '\U{205F}' || c == '\U{3000}'
  }

  predicate AllSpace(s: string)
  {
    forall i :: 0 <= i < |s| ==> IsSpace(s[i])
  }

  /** Neither end of s is whitespace. */
  predicate Trimmed(s: string)
  {
    s == [] || (!IsSpace(s[0]) && !IsSpace(s[|s| - 1]))
  }

  function TrimLeft(s: string): string
  {
    if s != [] && IsSpace(s[0]) then TrimLeft(s[1..]) else s
  }

  function TrimRight(s: string): string
  {
    if s != [] && IsSpace(s[|s| - 1]) then TrimRight(s[..|s| - 1]) else s
  }

  /** str.strip() with no argument. */
  function Strip(s: string): string
  {
    TrimRight(TrimLeft(s))
  }

  /** str.lower() on ASCII letters; other characters are kept. */
  function LowerAscii(s: string): (r: string)
    ensures |r| == |s|
  {
    if s == [] then []
    else
      var c := s[0];
      [if 'A' <= c <= 'Z' then (c as int + 32) as char else c] + LowerAscii(s[1..])
  }

  /** The prompt's test: confirm != 'y' and confirm != 'yes' cancels. */
  predicate Confirmed(answer: string)
  {
    var a := LowerAscii(Strip(answer));
    a == "y" || a == "yes"
  }

  /** Python truthiness of an optional string argument: None and "" are false. */
  predicate Truthy(arg: Option<string>)
  {
    arg.Some? && arg.value != []
  }

  lemma {:induction false} TrimLeftSplit(s: string) returns (l: string)
    ensures AllSpace(l) && s == l + TrimLeft(s)
    ensures TrimLeft(s) == [] || !IsSpace(TrimLeft(s)[0])
    decreases |s|
  {
    if s != [] && IsSpace(s[0]) {
      var l' := TrimLeftSplit(s[1..]);
      l := [s[0]] + l';
    } else {
      l := [];
    }
  }

  lemma {:induction false} TrimRightSplit(s: string) returns (r: string)
    ensures AllSpace(r) && s == TrimRight(s) + r
    ensures TrimRight(s) == [] || !IsSpace(TrimRight(s)[|TrimRight(s)| - 1])
    decreases |s|
  {
    if s != [] && IsSpace(s[|s| - 1]) {
      var init := s[..|s| - 1];
      var r' := TrimRightSplit(init);
      r := r' + [s[|s| - 1]];
      assert TrimRight(s) == TrimRight(init);
      assert s == init + [s[|s| - 1]];
      assert TrimRight(init) + r == (TrimRight(init) + r') + [s[|s| - 1]];
      assert forall k :: 0 <= k < |r'| ==> r[k] == r'[k];
    } else {
      r := [];
    }
  }

  /** Trimming the right end of a text that starts with a non-space leaves
      whitespace at neither end. */
  lemma TrimRightKeepsStart(t: string)
    requires t == [] || !IsSpace(t[0])
    ensures Trimmed(TrimRight(t))
  {
    var r := TrimRightSplit(t);
    var u := TrimRight(t);
    if u != [] {
      assert u[0] == (u + r)[0];
    }
  }

  /** Every answer is its stripped text surrounded by whitespace, and the
      stripped text has whitespace at neither end. */
  lemma StripSplit(s: string) returns (l: string, r: string)
    ensures AllSpace(l) && AllSpace(r)
    ensures s == l + Strip(s) + r
    ensures Trimmed(Strip(s))
  {
    l := TrimLeftSplit(s);
    r := TrimRightSplit(TrimLeft(s));
    TrimRightKeepsStart(TrimLeft(s));
    assert l + Strip(s) + r == l + (Strip(s) + r);
  }

  lemma {:induction false} TrimLeftSkips(l: string, c: string)
    requires AllSpace(l)
    requires c == [] || !IsSpace(c[0])
    ensures TrimLeft(l + c) == c
    decreases |l|
  {
    if l != [] {
      assert (l + c)[1..] == l[1..] + c;
      TrimLeftSkips(l[1..], c);
    }
  }

  lemma {:induction false} TrimRightSkips(c: string, r: string)
    requires AllSpace(r)
    requires c == [] || !IsSpace(c[|c| - 1])
    ensures TrimRight(c + r) == c
    decreases |r|
  {
    if r != [] {
      assert (c + r)[..|c + r| - 1] == c + r[..|r| - 1];
      TrimRightSkips(c, r[..|r| - 1]);
    } else {
      assert c + r == c;
    }
  }

  /** Whitespace around a trimmed word is exactly what strip() removes. */
  lemma StripSurrounded(l: string, c: string, r: string)
    requires AllSpace(l) && AllSpace(r) && Trimmed(c)
    ensures Strip(l + c + r) == c
  {
    if c == [] {
      TrimLeftSkips(l + r, []);
      assert l + c + r == (l + r) + [];
      assert AllSpace(l + r);
    } else {
      assert l + c + r == l + (c + r);
      TrimLeftSkips(l, c + r);
      TrimRightSkips(c, r);
    }
  }

  /** The confirmation accepts an answer exactly when its trimmed word,
      lowercased, is "y" or "yes". */
  lemma ConfirmedAnswer(l: string, c: string, r: string)
    requires AllSpace(l) && AllSpace(r) && Trimmed(c)
    ensures Confirmed(l + c + r) <==> LowerAscii(c) == "y" || LowerAscii(c) == "yes"
  {
    StripSurrounded(l, c, r);
  }

  lemma ConfirmedExamples()
    ensures Confirmed(" YES\n")
    ensures !Confirmed("yes please")
  {
    assert AllSpace(" ") && AllSpace("\n");
    StripSurrounded(" ", "YES", "\n");
    assert " " + "YES" + "\n" == " YES\n";
    assert LowerAscii("YES") == "yes";
    StripSurrounded("", "yes please", "");
    assert "" + "yes please" + "" == "yes please";
  }
}
