/** String helpers shared by the validators and parsers. */
module Text {
  /** Position of the first `c`, or the length. */
  function IndexOf(s: string, c: char): (k: nat)
    ensures k <= |s| && (k < |s| ==> s[k] == c) && forall i | 0 <= i < k :: s[i] != c
  {
    if s == "" || s[0] == c then 0 else 1 + IndexOf(s[1..], c)
  }

  /** The nonempty pieces between separators. */
  function Pieces(s: string, sep: char): (r: seq<string>)
    ensures forall i | 0 <= i < |r| :: r[i] != ""
  {
    if s == "" then []
    else
      var k := IndexOf(s, sep);
      (if k == 0 then [] else [s[..k]]) + (if k == |s| then [] else Pieces(s[k + 1..], sep))
  }

  /** The items of a list, with one separator between neighbours. */
  function Joined(items: seq<string>, sep: char): string {
    if items == [] then "" else if |items| == 1 then items[0] else items[0] + [sep] + Joined(items[1..], sep)
  }

  lemma FirstSeparator(s: string, rest: string, sep: char)
    requires sep !in s && (rest == "" || rest[0] == sep)
    ensures IndexOf(s + rest, sep) == |s| && (s + rest)[..|s|] == s
  {
    assert forall i | 0 <= i < |s| :: (s + rest)[i] == s[i];
    assert rest != "" ==> (s + rest)[|s|] == rest[0];
  }

  /** Written down as a list, items that are not empty and hold no separator come back as they were. */
  lemma {:induction false} PiecesOfList(items: seq<string>, sep: char)
    requires forall i | 0 <= i < |items| :: items[i] != "" && sep !in items[i]
    ensures Pieces(Joined(items, sep), sep) == items
  {
    if |items| == 1 {
      FirstSeparator(items[0], "", sep);
      assert items[0] + "" == items[0];
    } else if |items| > 1 {
      var rest := [sep] + Joined(items[1..], sep);
      FirstSeparator(items[0], rest, sep);
      PiecesOfList(items[1..], sep);
      assert Joined(items, sep) == items[0] + rest;
      assert (items[0] + rest)[|items[0]| + 1..] == Joined(items[1..], sep);
    }
  }

  /** Neither starts nor ends with the separator, and holds no two in a row. */
  predicate Separated(s: string, sep: char) {
    && (s != "" ==> s[0] != sep && s[|s| - 1] != sep)
    && forall i | 0 <= i < |s| - 1 :: !(s[i] == sep && s[i + 1] == sep)
  }

  lemma PiecesFrom(s: string, k: nat, sep: char)
    requires k <= |s| && sep !in s[..k] && (k < |s| ==> s[k] == sep)
    ensures Pieces(s, sep) == (if k == 0 then [] else [s[..k]]) + (if k == |s| then [] else Pieces(s[k + 1..], sep))
  {
    FirstSeparator(s[..k], s[k..], sep);
    assert s[..k] + s[k..] == s;
  }

  lemma SeparatedTail(s: string, k: nat, sep: char)
    requires Separated(s, sep) && k < |s| && s[k] == sep
    ensures k + 1 < |s| && s[k + 1..] != "" && Separated(s[k + 1..], sep) && k > 0
  {
    var rest := s[k + 1..];
    assert rest[0] == s[k + 1] && rest[|rest| - 1] == s[|s| - 1];
    forall i | 0 <= i < |rest| - 1 ensures !(rest[i] == sep && rest[i + 1] == sep) {
      assert rest[i] == s[k + 1 + i] && rest[i + 1] == s[k + 1 + i + 1];
    }
  }

  /** Such a text is the list of its pieces, and they hold no separator. */
  lemma {:induction false} ListOfPieces(s: string, sep: char)
    requires Separated(s, sep)
    ensures Joined(Pieces(s, sep), sep) == s && forall i | 0 <= i < |Pieces(s, sep)| :: sep !in Pieces(s, sep)[i]
    ensures s != "" ==> Pieces(s, sep) != []
    decreases |s|
  {
    hide Pieces, IndexOf, Separated;
    var k := IndexOf(s, sep);
    PiecesFrom(s, k, sep);
    if k < |s| {
      SeparatedTail(s, k, sep);
      ListOfPieces(s[k + 1..], sep);
      assert s == s[..k] + [sep] + s[k + 1..];
      assert ([s[..k]] + Pieces(s[k + 1..], sep))[1..] == Pieces(s[k + 1..], sep);
    } else {
      assert s[..k] == s;
    }
  }

  /** A list of items is such a text. */
  lemma {:induction false} ListsAreSeparated(items: seq<string>, sep: char)
    requires forall i | 0 <= i < |items| :: items[i] != "" && sep !in items[i]
    ensures Separated(Joined(items, sep), sep) && (Joined(items, sep) == "" <==> items == [])
  {
    if |items| > 1 {
      var rest := Joined(items[1..], sep);
      ListsAreSeparated(items[1..], sep);
      var s := items[0] + [sep] + rest;
      assert Joined(items, sep) == s;
      assert s[0] == items[0][0] && s[|s| - 1] == rest[|rest| - 1];
      forall i | 0 <= i < |s| - 1 ensures !(s[i] == sep && s[i + 1] == sep) {
        if i < |items[0]| { assert s[i] == items[0][i]; }
        else { assert s[i + 1] == rest[i - |items[0]|]; }
      }
    }
  }

  /** Every character of a list is the separator or stands in an item. */
  lemma {:induction false} JoinedCharacters(items: seq<string>, sep: char)
    ensures forall c | c in Joined(items, sep) :: c == sep || exists i :: 0 <= i < |items| && c in items[i]
  {
    if |items| > 1 {
      JoinedCharacters(items[1..], sep);
      forall c | c in Joined(items, sep) ensures c == sep || exists i :: 0 <= i < |items| && c in items[i] {
        if c !in items[0] && c != sep {
          assert c in Joined(items[1..], sep);
          var i :| 0 <= i < |items[1..]| && c in items[1..][i];
          assert c in items[i + 1];
        }
      }
    }
  }

  /** Every character of a piece stands in the text. */
  lemma {:induction false} PiecesAreSlices(s: string, sep: char)
    ensures forall i | 0 <= i < |Pieces(s, sep)| :: forall c | c in Pieces(s, sep)[i] :: c in s
    decreases |s|
  {
    if s != "" {
      var k := IndexOf(s, sep);
      if k < |s| { PiecesAreSlices(s[k + 1..], sep); }
      hide IndexOf;
    }
  }

  /** Whatever stands before a separator and behind it is cut up on its own; separators at the ends
      of a text, or beside others, separate nothing. */
  lemma ExtraSeparators(s: string, t: string, sep: char)
    ensures Pieces(s + [sep] + t, sep) == Pieces(s, sep) + Pieces(t, sep)
    ensures Pieces([sep] + s, sep) == Pieces(s, sep) == Pieces(s + [sep], sep)
  {
    PiecesSplit(s, t, sep);
    PiecesSplit(s, "", sep);
    PiecesSplit("", s, sep);
    assert "" + [sep] + s == [sep] + s && s + [sep] + "" == s + [sep] && Pieces("", sep) == [];
  }

  lemma {:induction false} PiecesSplit(s: string, t: string, sep: char)
    ensures Pieces(s + [sep] + t, sep) == Pieces(s, sep) + Pieces(t, sep)
    decreases |s|
  {
    hide Pieces, IndexOf;
    var k := IndexOf(s, sep);
    var whole := s + [sep] + t;
    assert whole[..k] == s[..k];
    assert k < |s| ==> whole[k] == s[k];
    PiecesFrom(s, k, sep);
    PiecesFrom(whole, k, sep);
    if k < |s| {
      PiecesSplit(s[k + 1..], t, sep);
      assert whole[k + 1..] == s[k + 1..] + [sep] + t;
    } else {
      assert whole[k + 1..] == t;
    }
  }

  predicate IsAlnum(c: char) {
    'a' <= c <= 'z' || 'A' <= c <= 'Z' || '0' <= c <= '9'
  }
}
