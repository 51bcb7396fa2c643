/** `without_extension`: Python's `".".join(filename.split('.')[:-1])`, with
    `str.split` and `str.join` written out for a one-character separator. */
module FileNames {

  /** Position of the last occurrence of `c` in `s`. */
  function LastIndexOf(s: string, c: char): (r: nat)
    requires c in s
    ensures r < |s| && s[r] == c && c !in s[r + 1..]
    decreases |s|
  {
    if s[|s| - 1] == c then |s| - 1
    else
      assert c in s[..|s| - 1] by {
        var k :| 0 <= k < |s| && s[k] == c;
        assert s[..|s| - 1][k] == c;
      }
      LastIndexOf(s[..|s| - 1], c)
  }

  /** `s.split(sep)`: the maximal separator-free pieces, empty ones included. */
  function Split(s: string, sep: char): (parts: seq<string>)
    ensures |parts| >= 1
    ensures forall k :: 0 <= k < |parts| ==> sep !in parts[k]
    decreases |s|
  {
    if sep !in s then [s]
    else
      var j := LastIndexOf(s, sep);
      Split(s[..j], sep) + [s[j + 1..]]
  }

  /** `sep.join(parts)`. */
  function Join(parts: seq<string>, sep: char): string
    decreases |parts|
  {
    if |parts| == 0 then ""
    else if |parts| == 1 then parts[0]
    else Join(parts[..|parts| - 1], sep) + [sep] + parts[|parts| - 1]
  }

  /** `without_extension`: everything before the last dot, or "" for a name without a dot. */
  function WithoutExtension(filename: string): (r: string)
    ensures '.' !in filename ==> r == ""
    ensures '.' in filename ==> r == filename[..LastIndexOf(filename, '.')]
  {
    DropLastPiece(filename);
    var parts := Split(filename, '.');
    Join(parts[..|parts| - 1], '.')
  }

  /** Joining the pieces of a split gives the string back. */
  lemma {:induction false} JoinSplit(s: string, sep: char)
    ensures Join(Split(s, sep), sep) == s
    decreases |s|
  {
    if sep in s {
      var j := LastIndexOf(s, sep);
      var init := Split(s[..j], sep);
      var parts := init + [s[j + 1..]];
      JoinSplit(s[..j], sep);
      assert parts[..|parts| - 1] == init;
      assert Join(parts, sep) == s[..j] + [sep] + s[j + 1..];
      CutAt(s, j);
    }
  }

  lemma CutAt(s: string, j: nat)
    requires j < |s|
    ensures s == s[..j] + [s[j]] + s[j + 1..]
  {
  }

  /** Joining all pieces but the last gives the text before the last separator. */
  lemma DropLastPiece(s: string)
    ensures var parts := Split(s, '.');
            && ('.' !in s ==> Join(parts[..|parts| - 1], '.') == "")
            && ('.' in s ==> Join(parts[..|parts| - 1], '.') == s[..LastIndexOf(s, '.')])
  {
    if '.' in s {
      var j := LastIndexOf(s, '.');
      var parts := Split(s, '.');
      assert parts[..|parts| - 1] == Split(s[..j], '.');
      JoinSplit(s[..j], '.');
    }
  }

  /** The name is the result, a dot, and an extension that holds no dot. */
  lemma WithoutExtensionCut(filename: string)
    requires '.' in filename
    ensures var j := LastIndexOf(filename, '.');
            && filename == WithoutExtension(filename) + "." + filename[j + 1..]
            && '.' !in filename[j + 1..]
  {
    var j := LastIndexOf(filename, '.');
    assert filename == filename[..j] + "." + filename[j + 1..];
  }
}
