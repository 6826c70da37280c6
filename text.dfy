/** String operations the table components rely on: `toLowerCase` (over ASCII),
    `String.prototype.includes`, `slice(-4)`, the card-number mask, and how a record
    field renders in JSX. */
module Text {

  /** A record as the remote API returns it: field name to value. A key that is not
      present stands for `undefined` (or `null`). */
  type Record = map<string, string>

  /** One labelled line of a detail overlay: `<strong>title:</strong> text`. */
  datatype Entry = Entry(title: string, text: string)

  /** `{item[field]}` in JSX: an absent field renders as nothing. */
  function FieldText(r: Record, field: string): (t: string)
    ensures field in r ==> t == r[field]
    ensures field !in r ==> t == ""
  {
    if field in r then r[field] else ""
  }

  predicate IsUpper(c: char) { 'A' <= c <= 'Z' }

  /** `toLowerCase` on one character, restricted to ASCII letters. */
  function LowerChar(c: char): (d: char)
    ensures !IsUpper(d)
    ensures IsUpper(c) ==> d as int == c as int + 32
    ensures !IsUpper(c) ==> d == c
  {
    if IsUpper(c) then (c as int + 32) as char else c
  }

  /** `s.toLowerCase()`. */
  function Lower(s: string): (r: string)
    ensures |r| == |s|
    ensures forall i :: 0 <= i < |s| ==> r[i] == LowerChar(s[i])
  {
    if s == [] then [] else [LowerChar(s[0])] + Lower(s[1..])
  }

  lemma LowerIsIdempotent(s: string)
    ensures Lower(Lower(s)) == Lower(s)
  {
    assert forall i :: 0 <= i < |s| ==> Lower(Lower(s))[i] == Lower(s)[i];
  }

  /** `needle` occurs in `hay` starting at position `i`. */
  predicate OccursAt(hay: string, needle: string, i: nat)
  {
    i + |needle| <= |hay| && hay[i..i + |needle|] == needle
  }

  lemma OccursAtShift(hay: string, needle: string, i: nat)
    requires hay != []
    ensures OccursAt(hay[1..], needle, i) <==> OccursAt(hay, needle, i + 1)
  {
    if i + |needle| <= |hay[1..]| {
      assert hay[1..][i..i + |needle|] == hay[i + 1..i + 1 + |needle|];
    }
  }

  /** `hay.includes(needle)`: true iff `needle` occurs somewhere in `hay`; the empty
      string occurs everywhere. */
  function Includes(hay: string, needle: string): (r: bool)
    ensures r <==> exists i: nat :: i <= |hay| && OccursAt(hay, needle, i)
    decreases |hay|
  {
    if needle <= hay then
      assert OccursAt(hay, needle, 0);
      true
    else if hay == [] then
      false
    else
      var r := Includes(hay[1..], needle);
      assert !OccursAt(hay, needle, 0);
      assert forall i: nat :: OccursAt(hay[1..], needle, i) <==> OccursAt(hay, needle, i + 1) by {
        forall i: nat ensures OccursAt(hay[1..], needle, i) <==> OccursAt(hay, needle, i + 1) {
          OccursAtShift(hay, needle, i);
        }
      }
      assert r ==> exists i: nat :: i <= |hay| && OccursAt(hay, needle, i) by {
        if r {
          var j: nat :| j <= |hay[1..]| && OccursAt(hay[1..], needle, j);
          assert OccursAt(hay, needle, j + 1);
        }
      }
      assert (exists i: nat :: i <= |hay| && OccursAt(hay, needle, i)) ==> r by {
        if exists i: nat :: i <= |hay| && OccursAt(hay, needle, i) {
          var j: nat :| j <= |hay| && OccursAt(hay, needle, j);
          assert j > 0;
          assert OccursAt(hay[1..], needle, j - 1);
        }
      }
      r
  }

  /** The case-insensitive match used by both search boxes:
      `value.toLowerCase().includes(searchTerm.toLowerCase())`. */
  predicate MatchesTerm(value: string, term: string): (b: bool)
    ensures b <==> exists i: nat :: i <= |value| && OccursAt(Lower(value), Lower(term), i)
  {
    var hay, needle := Lower(value), Lower(term);
    var b := Includes(hay, needle);
    assert |hay| == |value|;
    assert b ==> exists i: nat :: i <= |value| && OccursAt(Lower(value), Lower(term), i) by {
      if b {
        var i: nat :| i <= |hay| && OccursAt(hay, needle, i);
        assert OccursAt(Lower(value), Lower(term), i);
      }
    }
    assert (exists i: nat :: i <= |value| && OccursAt(Lower(value), Lower(term), i)) ==> b by {
      if exists i: nat :: i <= |value| && OccursAt(Lower(value), Lower(term), i) {
        var i: nat :| i <= |value| && OccursAt(Lower(value), Lower(term), i);
        assert OccursAt(hay, needle, i);
      }
    }
    b
  }

  /** The match ignores the case of both the value and the search term. */
  lemma MatchIgnoresCase(value: string, term: string)
    ensures MatchesTerm(Lower(value), term) == MatchesTerm(value, term)
    ensures MatchesTerm(value, Lower(term)) == MatchesTerm(value, term)
  {
    LowerIsIdempotent(value);
    LowerIsIdempotent(term);
  }

  /** Every value matches the empty search term. */
  lemma {:induction false} EmptyTermMatches(value: string)
    ensures MatchesTerm(value, "")
  {
    assert Lower("") == "";
    assert OccursAt(Lower(value), "", 0);
  }

  /** `d.slice(-4)`: the last four characters, or all of `d` when it is shorter. */
  function LastFour(d: string): (r: string)
    ensures |r| == if |d| < 4 then |d| else 4
    ensures r == d[|d| - |r|..]
  {
    if |d| < 4 then d else d[|d| - 4..]
  }

  const CardMaskPrefix: string := "**** **** **** "
  const CvvMask: string := "***"

  /** A card number as the tables show it: the fixed mask followed by its last four characters. */
  function MaskCardNumber(d: string): (r: string)
    ensures |r| == |CardMaskPrefix| + (if |d| < 4 then |d| else 4)
    ensures r[..|CardMaskPrefix|] == CardMaskPrefix
    ensures r[|CardMaskPrefix|..] == d[|d| - (|r| - |CardMaskPrefix|)..]
  {
    CardMaskPrefix + LastFour(d)
  }

  /** The mask tells two card numbers apart exactly when their last four characters differ:
      nothing else about the number can be read from it. */
  lemma MaskRevealsOnlyLastFour(d1: string, d2: string)
    ensures MaskCardNumber(d1) == MaskCardNumber(d2) <==> LastFour(d1) == LastFour(d2)
  {
    if MaskCardNumber(d1) == MaskCardNumber(d2) {
      assert LastFour(d1) == MaskCardNumber(d1)[|CardMaskPrefix|..];
      assert LastFour(d2) == MaskCardNumber(d2)[|CardMaskPrefix|..];
    }
  }

  lemma MaskExample()
    ensures MaskCardNumber("4111111111111111") == "**** **** **** 1111"
    ensures MaskCardNumber("12") == "**** **** **** 12"
  {
  }
}
