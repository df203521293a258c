/** String helpers shared by every page: ASCII lower-casing, the substring test of
    `String.prototype.includes`, and `String.prototype.split` on one separator. */
module Text {

  predicate IsUpper(c: char) {
    'A' <= c <= 'Z'
  }

  /** `toLowerCase` on one character, restricted to ASCII letters. */
  function LowerChar(c: char): char {
    if IsUpper(c) then (c as int + 32) as char else c
  }

  /** `s.toLowerCase()`, ASCII only: every upper-case letter is replaced, nothing else moves. */
  function Lower(s: string): (r: string)
    ensures |r| == |s|
    ensures forall i :: 0 <= i < |r| ==> !IsUpper(r[i])
    ensures (forall i :: 0 <= i < |s| ==> !IsUpper(s[i])) ==> r == s
  {
    seq(|s|, i requires 0 <= i < |s| => LowerChar(s[i]))
  }

  lemma LowerIdempotent(s: string)
    ensures Lower(Lower(s)) == Lower(s)
  {
  }

  /** A character that is not an upper-case letter occurs in `Lower(s)` exactly when it occurs in `s`. */
  lemma LowerKeepsOther(s: string, c: char)
    requires !IsUpper(c) && !('a' <= c <= 'z')
    ensures c in Lower(s) <==> c in s
  {
    if c in Lower(s) {
      var i :| 0 <= i < |s| && Lower(s)[i] == c;
      assert s[i] == c;
    }
    if c in s {
      var i :| 0 <= i < |s| && s[i] == c;
      assert Lower(s)[i] == c;
    }
  }

  predicate IsPrefix(p: string, s: string) {
    |p| <= |s| && s[..|p|] == p
  }

  /** `hay.includes(needle)`: some window of `hay` equals `needle`, tried from the left. */
  predicate Contains(hay: string, needle: string)
    decreases |hay|
  {
    IsPrefix(needle, hay) || (|hay| > 0 && Contains(hay[1..], needle))
  }

  /** `needle` occurs in `hay` starting at index `i`. */
  predicate OccursAt(hay: string, needle: string, i: int) {
    0 <= i && i + |needle| <= |hay| && hay[i..i + |needle|] == needle
  }

  /** `Contains` is the usual substring relation, in both directions. */
  lemma {:induction false} ContainsIff(hay: string, needle: string)
    ensures Contains(hay, needle) <==> exists i :: OccursAt(hay, needle, i)
    decreases |hay|
  {
    if IsPrefix(needle, hay) {
      assert OccursAt(hay, needle, 0);
    } else if |hay| > 0 {
      ContainsIff(hay[1..], needle);
      if Contains(hay[1..], needle) {
        var i :| OccursAt(hay[1..], needle, i);
        assert hay[i + 1..i + 1 + |needle|] == hay[1..][i..i + |needle|];
        assert OccursAt(hay, needle, i + 1);
      }
      if exists i :: OccursAt(hay, needle, i) {
        var i :| OccursAt(hay, needle, i);
        assert i != 0;
        assert hay[1..][i - 1..i - 1 + |needle|] == hay[i..i + |needle|];
        assert OccursAt(hay[1..], needle, i - 1);
      }
    }
  }

  /** The empty string is contained in every string (`s.includes("")` is always true). */
  lemma ContainsEmpty(hay: string)
    ensures Contains(hay, "")
  {
    assert IsPrefix("", hay);
  }

  /** Every character of a contained needle occurs in the haystack. */
  lemma ContainsChar(hay: string, needle: string, c: char)
    requires Contains(hay, needle) && c in needle
    ensures c in hay
  {
    ContainsIff(hay, needle);
    var i :| OccursAt(hay, needle, i);
    var j :| 0 <= j < |needle| && needle[j] == c;
    assert hay[i + j] == c;
  }

  /** `field.toLowerCase().includes(term.toLowerCase())`: the case-insensitive search used on every page. */
  predicate MatchesText(field: string, term: string) {
    Contains(Lower(field), Lower(term))
  }

  /** Case-insensitivity: two search terms that lower-case alike match the same fields. */
  lemma MatchesTextCaseInsensitive(field: string, t1: string, t2: string)
    requires Lower(t1) == Lower(t2)
    ensures MatchesText(field, t1) == MatchesText(field, t2)
  {
  }

  /** An empty search term matches every field. */
  lemma MatchesTextEmpty(field: string)
    ensures MatchesText(field, "")
  {
    ContainsEmpty(Lower(field));
  }

  /** `s.split(sep)` for a one-character separator: the pieces between separators, empty pieces
      included, so there is always at least one piece and no piece holds the separator. */
  function Split(s: string, sep: char): (r: seq<string>)
    ensures |r| >= 1
    ensures forall k :: 0 <= k < |r| ==> sep !in r[k]
    decreases |s|
  {
    if |s| == 0 then [""]
    else
      var rest := Split(s[1..], sep);
      if s[0] == sep then [""] + rest
      else [[s[0]] + rest[0]] + rest[1..]
  }

  /** `ws.join(sep)`. */
  function Join(ws: seq<string>, sep: char): string
    decreases |ws|
  {
    if |ws| == 0 then ""
    else if |ws| == 1 then ws[0]
    else ws[0] + [sep] + Join(ws[1..], sep)
  }

  /** Splitting loses nothing: joining the pieces back with the separator gives the input. */
  lemma {:induction false} SplitJoin(s: string, sep: char)
    ensures Join(Split(s, sep), sep) == s
    decreases |s|
  {
    if |s| > 0 {
      var rest := Split(s[1..], sep);
      SplitJoin(s[1..], sep);
      if s[0] == sep {
        assert Split(s, sep) == [""] + rest;
        assert s == [sep] + s[1..];
      } else if |rest| == 1 {
        assert s == [s[0]] + s[1..];
      } else {
        var r := Split(s, sep);
        assert r[1..] == rest[1..];
        assert s == [s[0]] + s[1..];
      }
    }
  }

  /** A string without the separator is a single piece. */
  lemma {:induction false} SplitWord(w: string, sep: char)
    requires sep !in w
    ensures Split(w, sep) == [w]
    decreases |w|
  {
    if |w| > 0 {
      SplitWord(w[1..], sep);
      assert w == [w[0]] + w[1..];
    }
  }

  /** Splitting distributes over a separator: the pieces of `a sep b` are those of `a` then those of `b`. */
  lemma {:induction false} SplitAppend(a: string, b: string, sep: char)
    ensures Split(a + [sep] + b, sep) == Split(a, sep) + Split(b, sep)
    decreases |a|
  {
    var s := a + [sep] + b;
    if |a| == 0 {
      assert s[1..] == b;
    } else {
      assert s[1..] == a[1..] + [sep] + b;
      SplitAppend(a[1..], b, sep);
    }
  }

  /** A search term holding a character (neither a letter nor changed by lower-casing) that the field
      lacks cannot match that field. */
  lemma NoMatchWithout(field: string, term: string, c: char)
    requires !IsUpper(c) && !('a' <= c <= 'z')
    requires c in term && c !in field
    ensures !MatchesText(field, term)
  {
    LowerKeepsOther(term, c);
    LowerKeepsOther(field, c);
    if MatchesText(field, term) {
      ContainsChar(Lower(field), Lower(term), c);
    }
  }

  /** A search term holding a letter that the field lacks in both cases cannot match that field. */
  lemma NoMatchWithoutLetter(field: string, term: string, c: char)
    requires 'a' <= c <= 'z'
    requires c in Lower(term) && c !in field && (c as int - 32) as char !in field
    ensures !MatchesText(field, term)
  {
    if MatchesText(field, term) {
      ContainsChar(Lower(field), Lower(term), c);
    }
  }

  /** Every string matches itself, whatever the case of either side. */
  lemma MatchesSelf(field: string, term: string)
    requires Lower(field) == Lower(term)
    ensures MatchesText(field, term)
  {
    assert IsPrefix(Lower(term), Lower(field));
  }
}
