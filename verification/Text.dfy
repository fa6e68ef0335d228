/** The string helpers that statement fields pass through, on ASCII letters and blanks. */
module Text {
  predicate IsSpace(c: char) { c in {' ', '\t', '\n', '\r'} }

  predicate Trimmed(s: string) { s != "" ==> !IsSpace(s[0]) && !IsSpace(s[|s| - 1]) }

  function Trim(s: string): (r: string)
    ensures Trimmed(r) && (Trimmed(s) ==> r == s)
  {
    if s == "" then ""
    else if IsSpace(s[0]) then Trim(s[1..])
    else if IsSpace(s[|s| - 1]) then Trim(s[..|s| - 1])
    else s
  }

  function UpperChar(c: char): char { if 'a' <= c <= 'z' then (c as int - 32) as char else c }
  function LowerChar(c: char): char { if 'A' <= c <= 'Z' then (c as int + 32) as char else c }
  function Upper(s: string): string { seq(|s|, i requires 0 <= i < |s| => UpperChar(s[i])) }
  function Lower(s: string): string { seq(|s|, i requires 0 <= i < |s| => LowerChar(s[i])) }

  function Split(s: string, sep: char): seq<string>
    decreases |s|
  {
    if sep !in s then [s]
    else
      var i := IndexOf(s, sep);
      [s[..i]] + Split(s[i + 1..], sep)
  }

  function IndexOf(s: string, c: char): (i: nat)
    requires c in s
    ensures i < |s| && s[i] == c && c !in s[..i]
  {
    if s[0] == c then 0 else 1 + IndexOf(s[1..], c)
  }

  predicate Blank(s: string) { forall i :: 0 <= i < |s| ==> IsSpace(s[i]) }

  /** `r` is what is left of `s` between blanks. */
  predicate Strips(s: string, r: string, i: nat, j: nat) {
    i <= j <= |s| && r == s[i..j] && Blank(s[..i]) && Blank(s[j..])
  }

  lemma TrimStep(s: string)
    ensures s == "" || (!IsSpace(s[0]) && !IsSpace(s[|s| - 1])) ==> Trim(s) == s
    ensures s != "" && IsSpace(s[0]) ==> Trim(s) == Trim(s[1..])
    ensures s != "" && !IsSpace(s[0]) && IsSpace(s[|s| - 1]) ==> Trim(s) == Trim(s[..|s| - 1])
  {}

  /** Trimming takes blanks off both ends and nothing else. */
  lemma {:induction false} TrimExactly(s: string)
    ensures exists i: nat, j: nat :: Strips(s, Trim(s), i, j)
  {
    hide Trim, IsSpace;
    TrimStep(s);
    if s == "" || (!IsSpace(s[0]) && !IsSpace(s[|s| - 1])) {
      assert Strips(s, s, 0, |s|);
    } else if IsSpace(s[0]) {
      TrimExactly(s[1..]);
      var i: nat, j: nat :| Strips(s[1..], Trim(s[1..]), i, j);
      StripFirst(s, Trim(s[1..]), i, j);
      assert Strips(s, Trim(s), i + 1, j + 1);
    } else {
      TrimExactly(s[..|s| - 1]);
      var i: nat, j: nat :| Strips(s[..|s| - 1], Trim(s[..|s| - 1]), i, j);
      StripLast(s, Trim(s[..|s| - 1]), i, j);
      assert Strips(s, Trim(s), i, j);
    }
  }

  lemma StripFirst(s: string, r: string, i: nat, j: nat)
    requires s != "" && IsSpace(s[0]) && Strips(s[1..], r, i, j)
    ensures Strips(s, r, i + 1, j + 1)
  {
    assert s[1..][i..j] == s[i + 1..j + 1] && s[1..][j..] == s[j + 1..];
    assert s[..i + 1] == [s[0]] + s[1..][..i];
  }

  lemma StripLast(s: string, r: string, i: nat, j: nat)
    requires s != "" && IsSpace(s[|s| - 1]) && Strips(s[..|s| - 1], r, i, j)
    ensures Strips(s, r, i, j)
  {
    var last := |s| - 1;
    assert s[..last][i..j] == s[i..j] && s[..last][..i] == s[..i];
    assert s[j..] == s[..last][j..] + [s[last]];
  }

  /** The parts of a list with the separators between them. */
  function Joined(parts: seq<string>, sep: char): string {
    if parts == [] then ""
    else if |parts| == 1 then parts[0]
    else parts[0] + [sep] + Joined(parts[1..], sep)
  }

  /** Splitting cuts at every separator and loses nothing. */
  lemma {:induction false} SplitExactly(s: string, sep: char)
    ensures Split(s, sep) != [] && Joined(Split(s, sep), sep) == s
    ensures forall part :: part in Split(s, sep) ==> sep !in part
    decreases |s|
  {
    if sep in s {
      var i := IndexOf(s, sep);
      SplitExactly(s[i + 1..], sep);
      assert Split(s, sep)[1..] == Split(s[i + 1..], sep);
      assert s == s[..i] + [sep] + s[i + 1..];
    }
  }

  /** Folding case exchanges the ASCII letters for their counterparts, place by place, and leaves all else alone. */
  lemma CaseExactly(s: string, i: nat)
    requires i < |s|
    ensures |Upper(s)| == |s| && |Lower(s)| == |s|
    ensures 'a' <= s[i] <= 'z' ==> Upper(s)[i] - 'A' == s[i] - 'a' && Lower(s)[i] == s[i]
    ensures 'A' <= s[i] <= 'Z' ==> Lower(s)[i] - 'a' == s[i] - 'A' && Upper(s)[i] == s[i]
    ensures !('a' <= s[i] <= 'z') && !('A' <= s[i] <= 'Z') ==> Upper(s)[i] == s[i] && Lower(s)[i] == s[i]
  {}
}
