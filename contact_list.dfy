/**
 * The contact list adapter: the letter index it builds over the contacts
 * cursor (first letter of each display name -> position where its run starts),
 * the section-letter decision for each bound row, and the row view holder's
 * expanded/favorite state.
 *
 * The cursor is the sequence of its rows.  Upper-casing is modelled for ASCII
 * letters only.  Every display name must be non-empty: the adapter takes
 * substring(0, 1) of it, which throws on an empty or null name.
 */
module ContactList {
  import opened Wrappers

  const MODE_DEFAULT: int := 0
  const MODE_SOS: int := 1
  const MODE_SHARE: int := 2

  /** The columns of one cursor row the adapter reads. */
  datatype ContactRow = ContactRow(displayName: string, lookupKey: Option<string>, starred: int)

  /** What a click on a contact row starts. */
  datatype ClickAction =
    | OpenContactInfo(lookupKey: string)
    | PinSosContact(lookupKey: string)
    | ShareContact(lookupKey: string)
    | NoAction

  /**
   * String.toUpperCase on a one-character string, reduced to 'a'-'z' -> 'A'-'Z';
   * every other character is left unchanged.  Java's default-locale mapping
   * (Turkish 'i' -> 'İ') and full Unicode case mapping (é -> É) are not modelled.
   */
  function UpperCase(c: char): char
  {
    if 'a' <= c <= 'z' then (c as int - 32) as char else c
  }

  predicate NamesPresent(cursor: seq<ContactRow>) {
    forall i :: 0 <= i < |cursor| ==> cursor[i].displayName != []
  }

  /**
   * The upper-cased first letter of a row's display name.  The name's first
   * element is a Unicode scalar value, where Java takes the first UTF-16 code
   * unit; the two differ only for names starting outside the BMP.
   */
  function FirstLetter(row: ContactRow): char
    requires row.displayName != []
  {
    UpperCase(row.displayName[0])
  }

  /** The set of first letters occurring in the cursor. */
  function Letters(cursor: seq<ContactRow>): set<char>
    requires NamesPresent(cursor)
  {
    set i | 0 <= i < |cursor| :: FirstLetter(cursor[i])
  }

  /** Position i starts a run of rows sharing a first letter. */
  predicate IsRunStart(cursor: seq<ContactRow>, i: int)
    requires NamesPresent(cursor) && 0 <= i < |cursor|
  {
    i == 0 || FirstLetter(cursor[i]) != FirstLetter(cursor[i - 1])
  }

  /**
   * The letter index as the adapter's loop leaves it: each run start writes its
   * letter -> position, replacing an earlier entry for the same letter (as
   * SparseIntArray.append does for a key it already holds).
   */
  function LetterIndex(cursor: seq<ContactRow>): map<char, int>
    requires NamesPresent(cursor)
    decreases |cursor|
  {
    if cursor == [] then map[]
    else
      var n := |cursor|;
      var before := LetterIndex(cursor[..n - 1]);
      if IsRunStart(cursor, n - 1) then before[FirstLetter(cursor[n - 1]) := n - 1] else before
  }

  /** The index has exactly one key per distinct first letter in the cursor. */
  lemma {:induction false} LetterIndexKeys(cursor: seq<ContactRow>)
    requires NamesPresent(cursor)
    ensures LetterIndex(cursor).Keys == Letters(cursor)
    decreases |cursor|
  {
    if cursor != [] {
      var n := |cursor|;
      var prefix := cursor[..n - 1];
      LetterIndexKeys(prefix);
      assert Letters(cursor) == Letters(prefix) + {FirstLetter(cursor[n - 1])} by {
        forall c | c in Letters(cursor) ensures c in Letters(prefix) + {FirstLetter(cursor[n - 1])} {
          var i :| 0 <= i < n && FirstLetter(cursor[i]) == c;
          if i < n - 1 {
            assert prefix[i] == cursor[i];
          }
        }
        forall c | c in Letters(prefix) ensures c in Letters(cursor) {
          var i :| 0 <= i < n - 1 && FirstLetter(prefix[i]) == c;
          assert cursor[i] == prefix[i];
        }
      }
      if !IsRunStart(cursor, n - 1) {
        assert prefix[n - 2] == cursor[n - 2];
        assert FirstLetter(cursor[n - 1]) in Letters(prefix);
      }
    }
  }

  /**
   * Each stored position is a run start of its letter, inside the cursor, and
   * the last such run start: no later run start has the same letter.
   */
  lemma {:induction false} LetterIndexPositions(cursor: seq<ContactRow>, c: char)
    requires NamesPresent(cursor) && c in LetterIndex(cursor)
    ensures var p := LetterIndex(cursor)[c];
      && 0 <= p < |cursor|
      && IsRunStart(cursor, p)
      && FirstLetter(cursor[p]) == c
      && forall j :: p < j < |cursor| && IsRunStart(cursor, j) ==> FirstLetter(cursor[j]) != c
    decreases |cursor|
  {
    var n := |cursor|;
    var prefix := cursor[..n - 1];
    var p := LetterIndex(cursor)[c];
    if IsRunStart(cursor, n - 1) && FirstLetter(cursor[n - 1]) == c {
      assert p == n - 1;
    } else {
      assert c in LetterIndex(prefix);
      LetterIndexPositions(prefix, c);
      assert p == LetterIndex(prefix)[c];
      assert prefix[p] == cursor[p];
      if p > 0 {
        assert prefix[p - 1] == cursor[p - 1];
      }
      forall j | p < j < n && IsRunStart(cursor, j) ensures FirstLetter(cursor[j]) != c {
        if j < n - 1 {
          assert prefix[j] == cursor[j] && prefix[j - 1] == cursor[j - 1];
          assert IsRunStart(prefix, j);
        }
      }
    }
  }

  /** The rows with one first letter are contiguous (as in a cursor sorted by display name). */
  predicate LettersGrouped(cursor: seq<ContactRow>)
    requires NamesPresent(cursor)
  {
    forall i, j, k :: 0 <= i < j < k < |cursor| && FirstLetter(cursor[i]) == FirstLetter(cursor[k]) ==>
      FirstLetter(cursor[j]) == FirstLetter(cursor[i])
  }

  /** When the letters are grouped, a letter's stored position is the first row with that letter. */
  lemma GroupedIndexIsFirstPosition(cursor: seq<ContactRow>, c: char)
    requires NamesPresent(cursor) && LettersGrouped(cursor) && c in LetterIndex(cursor)
    ensures 0 <= LetterIndex(cursor)[c] < |cursor|
    ensures forall j :: 0 <= j < LetterIndex(cursor)[c] ==> FirstLetter(cursor[j]) != c
  {
    LetterIndexPositions(cursor, c);
  }

  /**
   * The letter onBindViewHolder passes to setLetter for a row: the raw first
   * character at position 0, the upper-cased first letter where it differs
   * from the previous row's, otherwise none (no section header).
   */
  function SectionLetter(cursor: seq<ContactRow>, position: int): Option<char>
    requires NamesPresent(cursor) && 0 <= position < |cursor|
  {
    if position == 0 then Some(cursor[0].displayName[0])
    else if FirstLetter(cursor[position - 1]) != FirstLetter(cursor[position]) then Some(FirstLetter(cursor[position]))
    else None
  }

  /**
   * A row shows a section letter iff it starts a run, the letter shown is its
   * upper-cased first letter, and that letter is a key of the letter index.
   */
  lemma SectionLetterAgreesWithIndex(cursor: seq<ContactRow>, position: int)
    requires NamesPresent(cursor) && 0 <= position < |cursor|
    ensures SectionLetter(cursor, position).Some? <==> IsRunStart(cursor, position)
    ensures SectionLetter(cursor, position).Some? ==>
              && UpperCase(SectionLetter(cursor, position).value) == FirstLetter(cursor[position])
              && FirstLetter(cursor[position]) in LetterIndex(cursor)
  {
    LetterIndexKeys(cursor);
    assert FirstLetter(cursor[position]) in Letters(cursor);
  }

  /** For grouped letters, the header rows are exactly the positions the letter index stores. */
  lemma HeaderRowsAreIndexedPositions(cursor: seq<ContactRow>, position: int)
    requires NamesPresent(cursor) && LettersGrouped(cursor) && 0 <= position < |cursor|
    ensures FirstLetter(cursor[position]) in LetterIndex(cursor)
    ensures SectionLetter(cursor, position).Some? <==>
              LetterIndex(cursor)[FirstLetter(cursor[position])] == position
  {
    var c := FirstLetter(cursor[position]);
    LetterIndexKeys(cursor);
    assert c in Letters(cursor);
    SectionLetterAgreesWithIndex(cursor, position);
    LetterIndexPositions(cursor, c);
    GroupedIndexIsFirstPosition(cursor, c);
  }

  /** One contact row's view holder. */
  class ContactViewHolder {
    var lookupKey: Option<string>
    var nameText: string
    /** The section letter and its divider line are shown. */
    var expanded: bool
    var favorite: bool
    /** The text of the section-letter view. */
    var letterText: string

    /** A fresh holder: Java's default field values (the layout's initial texts are not modelled). */
    constructor ()
      ensures lookupKey.None? && !expanded && !favorite
      ensures nameText == [] && letterText == []
    {
      lookupKey, nameText, expanded, favorite, letterText := None, [], false, false, [];
    }

    /** Show a section letter (Some) or hide it (None). */
    method SetLetter(character: Option<char>)
      modifies this`expanded, this`letterText
      ensures character.Some? ==> expanded && letterText == [UpperCase(character.value)]
      ensures character.None? ==> !expanded && letterText == old(letterText)
      ensures character.None? && !old(expanded) ==> unchanged(this)
    {
      if character.None? && expanded {
        expanded := false;
      } else if character.Some? && expanded {
        letterText := [UpperCase(character.value)];
      } else if character.Some? {
        letterText := [UpperCase(character.value)];
        expanded := true;
      }
    }

    /** Mark the row as a favorite or not; setting the current value again does nothing. */
    method SetFavorite(f: bool)
      modifies this`favorite
      ensures favorite == f
      ensures f == old(favorite) ==> unchanged(this)
    {
      if f == favorite {
        return;
      }
      favorite := f;
    }

    /** A click on the row: without a lookup key the holder throws IllegalStateException. */
    method OnClick(mode: int) returns (r: Result<ClickAction, string>)
      ensures r.Failure? <==> lookupKey.None?
      ensures r.Success? ==> (r.value.NoAction? <==> mode !in {MODE_DEFAULT, MODE_SOS, MODE_SHARE})
      ensures r.Success? && mode == MODE_DEFAULT ==> r.value == OpenContactInfo(lookupKey.value)
      ensures r.Success? && mode == MODE_SOS ==> r.value == PinSosContact(lookupKey.value)
      ensures r.Success? && mode == MODE_SHARE ==> r.value == ShareContact(lookupKey.value)
    {
      if lookupKey.None? {
        return Failure("lookupKey cannot be null!");
      }
      var key := lookupKey.value;
      if mode == MODE_DEFAULT {
        r := Success(OpenContactInfo(key));
      } else if mode == MODE_SOS {
        r := Success(PinSosContact(key));
      } else if mode == MODE_SHARE {
        r := Success(ShareContact(key));
      } else {
        r := Success(NoAction);
      }
    }
  }

  class ContactRecyclerViewAdapter {
    const mode: int
    var cursor: seq<ContactRow>
    var letterToPosition: map<char, int>

    ghost predicate Valid()
      reads this
    {
      NamesPresent(cursor) && letterToPosition == LetterIndex(cursor)
    }

    constructor (cursor: seq<ContactRow>, mode: int)
      requires NamesPresent(cursor)
      ensures Valid() && this.cursor == cursor && this.mode == mode
    {
      this.mode := mode;
      this.cursor := cursor;
      letterToPosition := map[];
      new;
      ApplyToCursor();
    }

    /** Rebuild the letter index from the current cursor only. */
    method ApplyToCursor()
      requires NamesPresent(cursor)
      modifies this`letterToPosition
      ensures letterToPosition == LetterIndex(cursor)
    {
      letterToPosition := map[];
      var previousFirstLetter: Option<char> := None;
      for i := 0 to |cursor|
        invariant NamesPresent(cursor[..i])
        invariant letterToPosition == LetterIndex(cursor[..i])
        invariant previousFirstLetter == if i == 0 then None else Some(FirstLetter(cursor[i - 1]))
      {
        var tmpThis := UpperCase(cursor[i].displayName[0]);
        assert cursor[..i + 1][..i] == cursor[..i];
        if previousFirstLetter != Some(tmpThis) {
          letterToPosition := letterToPosition[tmpThis := i];
        }
        previousFirstLetter := Some(tmpThis);
      }
      assert cursor[..|cursor|] == cursor;
    }

    /** Swap in a new cursor and rebuild the index (the scroll back to the top is not modelled). */
    method ChangeCursor(cursor: seq<ContactRow>)
      requires NamesPresent(cursor)
      modifies this`cursor, this`letterToPosition
      ensures Valid() && this.cursor == cursor
    {
      this.cursor := cursor;
      ApplyToCursor();
    }

    /** The number of rows (the cursor's count), which bounds every position the letter index stores. */
    function GetItemCount(): (n: nat)
      reads this
      requires Valid()
      ensures n == |cursor|
      ensures forall c :: c in letterToPosition ==> 0 <= letterToPosition[c] < n
    {
      LetterPositionsInRange(cursor);
      |cursor|
    }

    /** Fill a row's holder: lookup key, favorite state, name, and its section letter. */
    method OnBindViewHolder(holder: ContactViewHolder, position: int)
      requires Valid() && 0 <= position < |cursor|
      modifies holder
      ensures holder.lookupKey == cursor[position].lookupKey
      ensures holder.nameText == cursor[position].displayName
      ensures holder.favorite == (cursor[position].starred == 1)
      ensures holder.expanded == IsRunStart(cursor, position)
      ensures holder.expanded ==> holder.letterText == [FirstLetter(cursor[position])]
      ensures !holder.expanded ==> holder.letterText == old(holder.letterText)
    {
      holder.lookupKey := cursor[position].lookupKey;
      var name := cursor[position].displayName;
      var letter := UpperCase(name[0]);
      holder.SetFavorite(cursor[position].starred == 1);
      holder.nameText := name;
      if position == 0 {
        holder.SetLetter(Some(name[0]));
      } else {
        var prevNameFirstLetter := UpperCase(cursor[position - 1].displayName[0]);
        if prevNameFirstLetter != letter {
          holder.SetLetter(Some(letter));
        } else {
          holder.SetLetter(None);
        }
      }
    }
  }

  lemma LetterPositionsInRange(cursor: seq<ContactRow>)
    requires NamesPresent(cursor)
    ensures forall c :: c in LetterIndex(cursor) ==> 0 <= LetterIndex(cursor)[c] < |cursor|
  {
    forall c | c in LetterIndex(cursor) ensures 0 <= LetterIndex(cursor)[c] < |cursor| {
      LetterIndexPositions(cursor, c);
    }
  }
}
