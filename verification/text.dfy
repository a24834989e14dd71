/**
  The handful of Python string operations the deployment code relies on:
  `str.isspace`, `str.strip`, the `in` operator on strings, `str.split('\n')`,
  `'\n'.join`, `str.lower` (as far as an ASCII needle can tell) and
  `os.path.join` / `os.path.dirname` on POSIX paths.
*/
module Text {

  /** Python's `str.isspace()` for a single character. */
  predicate IsSpace(c: char) {
    || c == ' '
    || ('\t' <= c <= '\r')
    || ('\U{1C}' <= c <= '\U{1F}')
    || c == '\U{85}' || c == '\U{A0}' || c == '\U{1680}'
    || ('\U{2000}' <= c <= '\U{200A}')
    || c == '\U{2028}' || c == '\U{2029}' || c == '\U{202F}' || c == '\U{205F}' || c == '\U{3000}'
  }

  /** A string that Python's `strip()` turns into the empty string. */
  predicate Blank(s: string) {
    forall i | 0 <= i < |s| :: IsSpace(s[i])
  }

  /** How many white-space characters `s` starts with. */
  function LeadingSpace(s: string): (n: nat)
    ensures n <= |s|
    ensures n < |s| ==> !IsSpace(s[n])
    decreases |s|
  {
    if s != [] && IsSpace(s[0]) then 1 + LeadingSpace(s[1..]) else 0
  }

  /** How many white-space characters `s` ends with. */
  function TrailingSpace(s: string): (n: nat)
    ensures n <= |s|
    ensures n < |s| ==> !IsSpace(s[|s| - 1 - n])
    decreases |s|
  {
    if s != [] && IsSpace(s[|s| - 1]) then 1 + TrailingSpace(s[..|s| - 1]) else 0
  }

  /** Everything `LeadingSpace` counts is white space. */
  lemma {:induction false} LeadingSpaceBlank(s: string)
    ensures forall i | 0 <= i < LeadingSpace(s) :: IsSpace(s[i])
    decreases |s|
  {
    if s != [] && IsSpace(s[0]) {
      LeadingSpaceBlank(s[1..]);
      forall i | 1 <= i < LeadingSpace(s)
        ensures IsSpace(s[i])
      {
        assert s[i] == s[1..][i - 1];
      }
    }
  }

  /** Everything `TrailingSpace` counts is white space. */
  lemma {:induction false} TrailingSpaceBlank(s: string)
    ensures forall i | |s| - TrailingSpace(s) <= i < |s| :: IsSpace(s[i])
    decreases |s|
  {
    if s != [] && IsSpace(s[|s| - 1]) {
      var t := s[..|s| - 1];
      TrailingSpaceBlank(t);
      forall i | |s| - TrailingSpace(s) <= i < |s| - 1
        ensures IsSpace(s[i])
      {
        assert s[i] == t[i];
      }
    }
  }

  /** `s.lstrip()`. */
  function StripLeft(s: string): string {
    s[LeadingSpace(s)..]
  }

  /** `s.rstrip()`. */
  function StripRight(s: string): string {
    s[..|s| - TrailingSpace(s)]
  }

  /** Python's `s.strip()`. */
  function Strip(s: string): (r: string)
    ensures r == [] || (!IsSpace(r[0]) && !IsSpace(r[|r| - 1]))
  {
    StripRight(StripLeft(s))
  }

  /** `s.strip()` is empty exactly when `s` consists of white space only. */
  lemma StripEmptyIffBlank(s: string)
    ensures Strip(s) == [] <==> Blank(s)
  {
    var n := LeadingSpace(s);
    LeadingSpaceBlank(s);
    if n < |s| {
      var l := s[n..];
      assert l[0] == s[n];
      assert TrailingSpace(l) < |l| by {
        TrailingSpaceBlank(l);
      }
    }
  }

  /** Stripping a string that has no white space at either end changes nothing. */
  lemma StripTrimmed(s: string)
    requires s == [] || (!IsSpace(s[0]) && !IsSpace(s[|s| - 1]))
    ensures Strip(s) == s
  {
  }

  predicate StartsWith(s: string, prefix: string) {
    |prefix| <= |s| && s[..|prefix|] == prefix
  }

  predicate EndsWith(s: string, suffix: string) {
    |suffix| <= |s| && s[|s| - |suffix|..] == suffix
  }

  /** Python's `needle in s` for strings. */
  predicate Contains(s: string, needle: string)
    decreases |s|
  {
    StartsWith(s, needle) || (s != [] && Contains(s[1..], needle))
  }

  /** A string contains whatever is spliced into it. */
  lemma {:induction false} ContainsSpliced(a: string, needle: string, b: string)
    ensures Contains(a + needle + b, needle)
    decreases |a|
  {
    if a == [] {
      assert a + needle + b == needle + b;
      assert (needle + b)[..|needle|] == needle;
    } else {
      assert (a + needle + b)[1..] == a[1..] + needle + b;
      ContainsSpliced(a[1..], needle, b);
    }
  }

  /** Text that contains a needle still contains it with more text after it. */
  lemma {:induction false} ContainsExtend(s: string, b: string, needle: string)
    requires Contains(s, needle)
    ensures Contains(s + b, needle)
    decreases |s|
  {
    if StartsWith(s, needle) {
      assert (s + b)[..|needle|] == s[..|needle|];
    } else {
      assert (s + b)[1..] == s[1..] + b;
      ContainsExtend(s[1..], b, needle);
    }
  }

  /** Text that contains a needle still contains it with more text before it. */
  lemma {:induction false} ContainsPrefixed(a: string, s: string, needle: string)
    requires Contains(s, needle)
    ensures Contains(a + s, needle)
    decreases |a|
  {
    if a == [] {
      assert a + s == s;
    } else {
      assert (a + s)[1..] == a[1..] + s;
      ContainsPrefixed(a[1..], s, needle);
    }
  }

  /** Python's `s.split(sep)` for a one-character separator: never empty;
      `k` separators give `k + 1` pieces. */
  function Split(s: string, sep: char): (r: seq<string>)
    ensures |r| >= 1
    decreases |s|
  {
    if s == [] then [""]
    else if s[0] == sep then [""] + Split(s[1..], sep)
    else
      var rest := Split(s[1..], sep);
      [[s[0]] + rest[0]] + rest[1..]
  }

  /** Python's `sep.join(ls)`. */
  function JoinWith(ls: seq<string>, sep: char): string
    decreases |ls|
  {
    if ls == [] then ""
    else if |ls| == 1 then ls[0]
    else ls[0] + [sep] + JoinWith(ls[1..], sep)
  }

  /** A joined string contains every piece it was joined from. */
  lemma {:induction false} JoinWithContains(ls: seq<string>, sep: char, i: nat)
    requires i < |ls|
    ensures Contains(JoinWith(ls, sep), ls[i])
    decreases |ls|
  {
    if |ls| == 1 {
      ContainsSpliced("", ls[0], "");
      assert "" + ls[0] + "" == ls[0];
    } else if i == 0 {
      ContainsSpliced("", ls[0], [sep] + JoinWith(ls[1..], sep));
      assert "" + ls[0] + ([sep] + JoinWith(ls[1..], sep)) == JoinWith(ls, sep);
    } else {
      JoinWithContains(ls[1..], sep, i - 1);
      ContainsPrefixed(ls[0] + [sep], JoinWith(ls[1..], sep), ls[i]);
    }
  }

  /** `s.split('\n')`. */
  function Lines(s: string): (r: seq<string>)
    ensures |r| >= 1
  {
    Split(s, '\n')
  }

  /** `'\n'.join(ls)`. */
  function Join(ls: seq<string>): string {
    JoinWith(ls, '\n')
  }

  /** Splitting at a separator splits the two sides independently. */
  lemma {:induction false} SplitAround(a: string, sep: char, b: string)
    ensures Split(a + [sep] + b, sep) == Split(a, sep) + Split(b, sep)
    decreases |a|
  {
    if a == [] {
      assert a + [sep] + b == [sep] + b;
      assert ([sep] + b)[1..] == b;
    } else {
      assert (a + [sep] + b)[1..] == a[1..] + [sep] + b;
      SplitAround(a[1..], sep, b);
    }
  }

  /** A string without the separator is a single piece. */
  lemma {:induction false} SplitOfPiece(s: string, sep: char)
    requires sep !in s
    ensures Split(s, sep) == [s]
    decreases |s|
  {
    if s != [] {
      SplitOfPiece(s[1..], sep);
      assert [s[0]] + s[1..] == s;
    }
  }

  /** Splitting undoes joining, as long as no piece holds the separator. */
  lemma {:induction false} SplitJoin(ls: seq<string>, sep: char)
    requires |ls| >= 1
    requires forall i | 0 <= i < |ls| :: sep !in ls[i]
    ensures Split(JoinWith(ls, sep), sep) == ls
    decreases |ls|
  {
    SplitOfPiece(ls[0], sep);
    if |ls| > 1 {
      SplitJoin(ls[1..], sep);
      SplitAround(ls[0], sep, JoinWith(ls[1..], sep));
      assert [ls[0]] + ls[1..] == ls;
    }
  }

  lemma LinesAround(a: string, b: string)
    ensures Lines(a + "\n" + b) == Lines(a) + Lines(b)
  {
    SplitAround(a, '\n', b);
  }

  lemma LinesOfLine(s: string)
    requires '\n' !in s
    ensures Lines(s) == [s]
  {
    SplitOfPiece(s, '\n');
  }

  lemma LinesJoin(ls: seq<string>)
    requires |ls| >= 1
    requires forall i | 0 <= i < |ls| :: '\n' !in ls[i]
    ensures Lines(Join(ls)) == ls
  {
    SplitJoin(ls, '\n');
  }

  /** Python's `str.lower()` for one character, exact for every character whose
      lower-case form contains an ASCII letter; other characters are kept. */
  function LowerChar(c: char): string {
    if 'A' <= c <= 'Z' then [(c as int + 32) as char]
    else if c == '\U{212A}' then "k"            // KELVIN SIGN
    else if c == '\U{130}' then "i\U{307}"      // LATIN CAPITAL LETTER I WITH DOT ABOVE
    else [c]
  }

  /** `s.lower()`, as seen by a search for an ASCII lower-case needle. */
  function Lower(s: string): string
    decreases |s|
  {
    if s == [] then "" else LowerChar(s[0]) + Lower(s[1..])
  }

  /** POSIX `os.path.join(a, b)` for two components: an absolute `b` replaces
      `a`, and a '/' is inserted only when `a` does not already end in one. */
  function PathJoin(a: string, b: string): string {
    if b != [] && b[0] == '/' then b
    else if a == [] || a[|a| - 1] == '/' then a + b
    else a + "/" + b
  }

  /** Joining a relative name onto a directory without a trailing slash inserts one '/'. */
  lemma PathJoinPlain(a: string, b: string)
    requires a != [] && a[|a| - 1] != '/'
    requires b == [] || b[0] != '/'
    ensures PathJoin(a, b) == a + "/" + b
  {
  }

  /** Index one past the last '/' of `s`, or 0 when there is none (`s.rfind('/') + 1`). */
  function AfterLastSlash(s: string): (i: nat)
    ensures i <= |s|
    ensures i > 0 ==> s[i - 1] == '/'
    ensures forall k | i <= k < |s| :: s[k] != '/'
    decreases |s|
  {
    if s == [] then 0
    else if s[|s| - 1] == '/' then |s|
    else AfterLastSlash(s[..|s| - 1])
  }

  predicate AllSlashes(s: string) {
    forall i | 0 <= i < |s| :: s[i] == '/'
  }

  /** `s.rstrip('/')`. */
  function TrimSlashes(s: string): (r: string)
    ensures |r| <= |s| && r == s[..|r|]
    decreases |s|
  {
    if s != [] && s[|s| - 1] == '/' then TrimSlashes(s[..|s| - 1]) else s
  }

  /** POSIX `os.path.dirname(p)`: everything before the last '/', with trailing
      slashes removed unless the head consists of slashes only. */
  function Dirname(p: string): (r: string)
    ensures '/' !in p ==> r == ""
  {
    var i := AfterLastSlash(p);
    var head := p[..i];
    if head != [] && !AllSlashes(head) then TrimSlashes(head) else head
  }

  /** After a slash, a slash-free tail does not move the last slash. */
  lemma {:induction false} AfterLastSlashTail(s: string, t: string)
    requires s != [] && s[|s| - 1] == '/'
    requires '/' !in t
    ensures AfterLastSlash(s + t) == |s|
    decreases |t|
  {
    if t == [] {
      assert s + t == s;
    } else {
      var u := s + t;
      var init := t[..|t| - 1];
      assert u[..|u| - 1] == s + init;
      AfterLastSlashTail(s, init);
    }
  }

  /** The directory of `dir + '/' + name` is `dir`, for a slash-free name and a
      directory without a trailing slash. */
  lemma DirnameOfChild(dir: string, name: string)
    requires dir != [] && dir[|dir| - 1] != '/'
    requires '/' !in name
    ensures Dirname(dir + "/" + name) == dir
  {
    var p := dir + "/" + name;
    AfterLastSlashTail(dir + "/", name);
    assert p[..|dir| + 1] == dir + "/";
    var head := dir + "/";
    assert head[..|head| - 1] == dir;
    assert head[|dir| - 1] != '/';
    assert TrimSlashes(head) == TrimSlashes(dir) == dir;
  }

  /** A string that can sit on one line inside a single-quoted shell word:
      no newline and no single quote. */
  predicate Clean(s: string) {
    forall i | 0 <= i < |s| :: s[i] != '\n' && s[i] != '\''
  }

  /** A clean string without spaces: one word to the shell and to a line splitter. */
  predicate Token(w: string) {
    forall i | 0 <= i < |w| :: w[i] != ' ' && w[i] != '\n' && w[i] != '\''
  }

  lemma CleanAppend(a: string, b: string)
    requires Clean(a) && Clean(b)
    ensures Clean(a + b)
  {
    forall i | |a| <= i < |a + b| ensures (a + b)[i] != '\n' && (a + b)[i] != '\'' {
      assert (a + b)[i] == b[i - |a|];
    }
  }

  /** Joining clean pieces with a clean separator gives a clean string. */
  lemma {:induction false} JoinWithClean(ls: seq<string>, sep: char)
    requires sep != '\n' && sep != '\''
    requires forall i | 0 <= i < |ls| :: Clean(ls[i])
    ensures Clean(JoinWith(ls, sep))
    decreases |ls|
  {
    if |ls| > 1 {
      JoinWithClean(ls[1..], sep);
      CleanAppend(ls[0], [sep]);
      CleanAppend(ls[0] + [sep], JoinWith(ls[1..], sep));
    }
  }

  /** Lines a heredoc ended by `EOF` carries through a single-quoted shell
      command: each is clean, and none of them ends the heredoc early. */
  predicate HereDocBody(ls: seq<string>) {
    forall i | 0 <= i < |ls| :: Clean(ls[i]) && ls[i] != "EOF"
  }

  lemma HereDocBodyAppend(a: seq<string>, b: seq<string>)
    requires HereDocBody(a) && HereDocBody(b)
    ensures HereDocBody(a + b)
  {
    forall i | 0 <= i < |a + b|
      ensures Clean((a + b)[i]) && (a + b)[i] != "EOF"
    {
      if i < |a| { assert (a + b)[i] == a[i]; } else { assert (a + b)[i] == b[i - |a|]; }
    }
  }
}
