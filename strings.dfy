/**
 * The Foundation string operations the app relies on: splitting on a
 * separator (`components(separatedBy:)`), joining, and trimming a fixed
 * character class (`trimmingCharacters(in:)`).
 */
module Strings {

  /**
   * `s.components(separatedBy: String(sep))`: the pieces between occurrences
   * of `sep`, in order; the empty string gives one empty piece.
   */
  function Split(s: string, sep: char): (parts: seq<string>)
    ensures |parts| >= 1
    decreases |s|
  {
    if |s| == 0 then [""]
    else
      var rest := Split(s[1..], sep);
      if s[0] == sep then [""] + rest
      else [[s[0]] + rest[0]] + rest[1..]
  }

  /** `parts.joined(separator: String(sep))`. */
  function Join(parts: seq<string>, sep: char): string
    requires |parts| >= 1
    decreases |parts|
  {
    if |parts| == 1 then parts[0] else parts[0] + [sep] + Join(parts[1..], sep)
  }

  /** No piece produced by Split contains the separator. */
  lemma {:induction false} SplitPiecesFree(s: string, sep: char)
    ensures forall i :: 0 <= i < |Split(s, sep)| ==> sep !in Split(s, sep)[i]
    decreases |s|
  {
    if |s| > 0 {
      SplitPiecesFree(s[1..], sep);
    }
  }

  /** Joining the pieces of a split gives back the original string. */
  lemma {:induction false} JoinSplit(s: string, sep: char)
    ensures Join(Split(s, sep), sep) == s
    decreases |s|
  {
    if |s| > 0 {
      var rest := Split(s[1..], sep);
      JoinSplit(s[1..], sep);
      if s[0] == sep {
        assert Split(s, sep) == [""] + rest;
        assert (([""] + rest)[1..]) == rest;
        assert s == [sep] + s[1..];
      } else {
        var parts := Split(s, sep);
        assert parts[0] == [s[0]] + rest[0];
        if |rest| == 1 {
          assert s == [s[0]] + rest[0];
        } else {
          assert parts[1..] == rest[1..];
          assert Join(rest, sep) == rest[0] + [sep] + Join(rest[1..], sep);
          assert s == [s[0]] + s[1..];
        }
      }
    }
  }

  /** Splitting at an occurrence of the separator splits both sides independently. */
  lemma {:induction false} SplitConcat(a: string, b: string, sep: char)
    ensures Split(a + [sep] + b, sep) == Split(a, sep) + Split(b, sep)
    decreases |a|
  {
    var s := a + [sep] + b;
    if |a| == 0 {
      assert s == [sep] + b;
      assert s[1..] == b;
    } else {
      assert s[1..] == a[1..] + [sep] + b;
      SplitConcat(a[1..], b, sep);
    }
  }

  /** A string without the separator is a single piece. */
  lemma {:induction false} SplitWithoutSeparator(s: string, sep: char)
    requires sep !in s
    ensures Split(s, sep) == [s]
    decreases |s|
  {
    if |s| > 0 {
      assert sep !in s[1..];
      SplitWithoutSeparator(s[1..], sep);
      assert s == [s[0]] + s[1..];
    }
  }

  /** Splitting the join of separator-free pieces gives the pieces back. */
  lemma {:induction false} SplitJoin(parts: seq<string>, sep: char)
    requires |parts| >= 1
    requires forall i :: 0 <= i < |parts| ==> sep !in parts[i]
    ensures Split(Join(parts, sep), sep) == parts
    decreases |parts|
  {
    SplitWithoutSeparator(parts[0], sep);
    if |parts| > 1 {
      SplitJoin(parts[1..], sep);
      SplitConcat(parts[0], Join(parts[1..], sep), sep);
      assert parts == [parts[0]] + parts[1..];
    }
  }

  // ---------------------------------------------------------------------------
  // Trimming

  /** The two Foundation character sets the app trims with. */
  datatype CharClass = Whitespaces | WhitespacesAndNewlines

  /** `CharacterSet.whitespaces`: tab and the Unicode space separators (category Zs). */
  predicate IsSpace(c: char) {
    c == '\t' || c == ' ' || c == '\U{00A0}' || c == '\U{1680}' || ('\U{2000}' <= c <= '\U{200A}')
    || c == '\U{202F}' || c == '\U{205F}' || c == '\U{3000}'
  }

  /** The newline characters `CharacterSet.whitespacesAndNewlines` adds. */
  predicate IsNewline(c: char) {
    ('\n' <= c <= '\r') || c == '\U{0085}' || c == '\U{2028}' || c == '\U{2029}'
  }

  predicate InClass(c: char, cls: CharClass) {
    IsSpace(c) || (cls == WhitespacesAndNewlines && IsNewline(c))
  }

  /** Drops the characters of `cls` at the front. */
  function TrimStart(s: string, cls: CharClass): string
    decreases |s|
  {
    if |s| > 0 && InClass(s[0], cls) then TrimStart(s[1..], cls) else s
  }

  /** Drops the characters of `cls` at the back. */
  function TrimEnd(s: string, cls: CharClass): string
    decreases |s|
  {
    if |s| > 0 && InClass(s[|s| - 1], cls) then TrimEnd(s[..|s| - 1], cls) else s
  }

  /** `s.trimmingCharacters(in: cls)`. */
  function Trim(s: string, cls: CharClass): string {
    TrimEnd(TrimStart(s, cls), cls)
  }

  /** TrimStart keeps a suffix of `s`, drops only class characters and stops at a non-class one. */
  lemma {:induction false} TrimStartSpec(s: string, cls: CharClass)
    ensures |TrimStart(s, cls)| <= |s| && TrimStart(s, cls) == s[|s| - |TrimStart(s, cls)|..]
    ensures forall k :: 0 <= k < |s| - |TrimStart(s, cls)| ==> InClass(s[k], cls)
    ensures |TrimStart(s, cls)| > 0 ==> !InClass(TrimStart(s, cls)[0], cls)
    decreases |s|
  {
    if |s| > 0 && InClass(s[0], cls) {
      TrimStartSpec(s[1..], cls);
      var r := TrimStart(s[1..], cls);
      assert s[1..][|s| - 1 - |r|..] == s[|s| - |r|..];
      forall k | 0 <= k < |s| - |r|
        ensures InClass(s[k], cls)
      {
        if k > 0 {
          assert s[k] == s[1..][k - 1];
        }
      }
    }
  }

  /** TrimEnd keeps a prefix of `s`, drops only class characters and stops at a non-class one. */
  lemma {:induction false} TrimEndSpec(s: string, cls: CharClass)
    ensures |TrimEnd(s, cls)| <= |s| && TrimEnd(s, cls) == s[..|TrimEnd(s, cls)|]
    ensures forall k :: |TrimEnd(s, cls)| <= k < |s| ==> InClass(s[k], cls)
    ensures |TrimEnd(s, cls)| > 0 ==> !InClass(TrimEnd(s, cls)[|TrimEnd(s, cls)| - 1], cls)
    decreases |s|
  {
    if |s| > 0 && InClass(s[|s| - 1], cls) {
      TrimEndSpec(s[..|s| - 1], cls);
      var r := TrimEnd(s[..|s| - 1], cls);
      assert s[..|s| - 1][..|r|] == s[..|r|];
    }
  }

  /**
   * Trim removes a run of class characters at each end and nothing else:
   * the result is the slice s[i..j], everything outside it is in the class,
   * and the result neither starts nor ends with a class character.
   */
  lemma TrimSpec(s: string, cls: CharClass) returns (i: nat, j: nat)
    ensures i <= j <= |s| && Trim(s, cls) == s[i..j]
    ensures forall k :: 0 <= k < i ==> InClass(s[k], cls)
    ensures forall k :: j <= k < |s| ==> InClass(s[k], cls)
    ensures i < j ==> !InClass(s[i], cls) && !InClass(s[j - 1], cls)
  {
    var t := TrimStart(s, cls);
    var r := TrimEnd(t, cls);
    TrimStartSpec(s, cls);
    TrimEndSpec(t, cls);
    i := |s| - |t|;
    j := i + |r|;
    assert t == s[i..];
    assert r == s[i..j];
    assert forall k :: 0 <= k < i ==> InClass(s[k], cls) by {
      TrimStartSpec(s, cls);
    }
    forall k | j <= k < |s|
      ensures InClass(s[k], cls)
    {
      TrimEndSpec(t, cls);
      assert s[k] == t[k - i];
    }
    if i < j {
      assert !InClass(s[i], cls) by {
        TrimStartSpec(s, cls);
        assert s[i] == t[0];
      }
      assert !InClass(s[j - 1], cls) by {
        TrimEndSpec(t, cls);
        assert r[|r| - 1] == t[|r| - 1] == s[j - 1];
      }
    }
  }

  /** Trimming a trimmed string changes nothing. */
  lemma TrimIdempotent(s: string, cls: CharClass)
    ensures Trim(Trim(s, cls), cls) == Trim(s, cls)
  {
    var r := Trim(s, cls);
    var i, j := TrimSpec(s, cls);
    if |r| > 0 {
      assert !InClass(r[0], cls) && !InClass(r[|r| - 1], cls);
      assert TrimStart(r, cls) == r;
      assert TrimEnd(r, cls) == r;
    }
  }
}
