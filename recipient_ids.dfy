/**
 * How the program turns text into recipient IDs: the comma-separated ID field
 * that `send_bulk` parses, and the `.txt` / `.csv` files `load_from_file`
 * reads and writes back into that field as `", ".join(ids)`.
 */
module RecipientIds {
  import opened Wrappers
  import opened Strings

  /** Each candidate stripped, the blank ones dropped, the order kept. */
  function CleanIds(items: seq<string>): (ids: seq<string>)
    ensures |ids| <= |items|
    ensures forall k :: 0 <= k < |ids| ==> IsClean(ids[k])
  {
    if items == [] then []
    else
      var id := Strip(items[0]);
      (if id == [] then [] else [id]) + CleanIds(items[1..])
  }

  /** Cleaning distributes over concatenation: no candidate affects another. */
  lemma {:induction false} CleanIdsAppend(a: seq<string>, b: seq<string>)
    ensures CleanIds(a + b) == CleanIds(a) + CleanIds(b)
    decreases |a|
  {
    if a != [] {
      assert (a + b)[1..] == a[1..] + b;
      CleanIdsAppend(a[1..], b);
    } else {
      assert a + b == b;
    }
  }

  /**
   * Exactly the non-blank candidates survive, stripped and in input order:
   * candidate `k`, when not blank, is ID number `|CleanIds(items[..k])|`.
   */
  lemma CleanIdsAt(items: seq<string>, k: nat)
    requires k < |items|
    ensures AllSpace(items[k]) ==> |CleanIds(items[..k + 1])| == |CleanIds(items[..k])|
    ensures !AllSpace(items[k]) ==>
      |CleanIds(items[..k])| < |CleanIds(items)| &&
      CleanIds(items)[|CleanIds(items[..k])|] == Strip(items[k])
  {
    assert items[..k + 1] == items[..k] + [items[k]];
    assert items == items[..k + 1] + items[k + 1..];
    CleanIdsAppend(items[..k], [items[k]]);
    CleanIdsAppend(items[..k + 1], items[k + 1..]);
  }

  /** No ID comes out exactly when every candidate is blank. */
  lemma {:induction false} CleanIdsEmpty(items: seq<string>)
    ensures CleanIds(items) == [] <==> forall k :: 0 <= k < |items| ==> AllSpace(items[k])
    decreases |items|
  {
    if items != [] {
      CleanIdsEmpty(items[1..]);
      assert forall k :: 1 <= k < |items| ==> items[k] == items[1..][k - 1];
    }
  }

  /** IDs that are already clean pass through unchanged, so cleaning is idempotent. */
  lemma {:induction false} CleanIdsOfClean(ids: seq<string>)
    requires forall k :: 0 <= k < |ids| ==> IsClean(ids[k])
    ensures CleanIds(ids) == ids
    decreases |ids|
  {
    if ids != [] {
      StripClean(ids[0]);
      CleanIdsOfClean(ids[1..]);
    }
  }

  lemma CleanIdsIdempotent(items: seq<string>)
    ensures CleanIds(CleanIds(items)) == CleanIds(items)
  {
    CleanIdsOfClean(CleanIds(items));
  }

  /**
   * The IDs of the ID field (max3.py line 153): the text cut at every
   * comma, each piece stripped, the blank pieces dropped.
   */
  function ParseIds(text: string): (ids: seq<string>)
    ensures forall k :: 0 <= k < |ids| ==> IsClean(ids[k]) && ',' !in ids[k]
  {
    var ids := CleanIds(Split(text, ','));
    assert forall k :: 0 <= k < |ids| ==> ',' !in ids[k] by {
      CommaFree(Split(text, ','));
    }
    ids
  }

  /** The field yields no ID exactly when every comma-separated piece is blank. */
  lemma ParseIdsEmpty(text: string)
    ensures ParseIds(text) == [] <==> forall k :: 0 <= k < |Split(text, ',')| ==> AllSpace(Split(text, ',')[k])
  {
    var pieces := Split(text, ',');
    CleanIdsEmpty(pieces);
    if ParseIds(text) != [] {
      var k :| 0 <= k < |pieces| && !AllSpace(pieces[k]);
      assert !AllSpace(Split(text, ',')[k]);
    }
  }

  /** A field holding only a comma is not blank, yet it yields no ID. */
  lemma CommaOnlyField()
    ensures !AllSpace(",") && ParseIds(",") == []
  {
    assert !IsSpace(","[0]);
    assert Split(",", ',') == [[], []] by {
      assert ","[1..] == [];
    }
    CleanIdsEmpty(Split(",", ','));
  }

  lemma {:induction false} CommaFree(items: seq<string>)
    requires forall k :: 0 <= k < |items| ==> ',' !in items[k]
    ensures forall k :: 0 <= k < |CleanIds(items)| ==> ',' !in CleanIds(items)[k]
    decreases |items|
  {
    if items != [] {
      CommaFree(items[1..]);
      var id := Strip(items[0]);
      StripMiddle(items[0]);
      assert forall c :: c in id ==> c in items[0];
    }
  }

  /** The IDs of a `.txt` file, given its lines (max3.py line 101). */
  function TxtIds(lines: seq<string>): (ids: seq<string>)
    ensures |ids| <= |lines|
    ensures forall k :: 0 <= k < |ids| ==> IsClean(ids[k])
    ensures ids == [] <==> forall k :: 0 <= k < |lines| ==> AllSpace(lines[k])
  {
    CleanIdsEmpty(lines);
    CleanIds(lines)
  }

  /**
   * The IDs of a `.csv` file, given the rows the CSV reader yields
   * (max3.py line 105): the stripped first cell of each row that has one
   * and whose first cell is not blank, in row order.
   */
  function CsvIds(rows: seq<seq<string>>): (ids: seq<string>)
    ensures |ids| <= |rows|
    ensures forall k :: 0 <= k < |ids| ==> IsClean(ids[k])
  {
    if rows == [] then []
    else
      (if rows[0] != [] && Strip(rows[0][0]) != [] then [Strip(rows[0][0])] else [])
      + CsvIds(rows[1..])
  }

  /** The first cell of every non-empty row, in order. */
  function FirstColumn(rows: seq<seq<string>>): (cells: seq<string>)
    ensures |cells| <= |rows|
  {
    if rows == [] then []
    else (if rows[0] == [] then [] else [rows[0][0]]) + FirstColumn(rows[1..])
  }

  /** A `.csv` file yields the IDs a `.txt` file holding its first column would. */
  lemma {:induction false} CsvIdsAreFirstColumn(rows: seq<seq<string>>)
    ensures CsvIds(rows) == TxtIds(FirstColumn(rows))
    decreases |rows|
  {
    if rows != [] {
      CsvIdsAreFirstColumn(rows[1..]);
      var head := if rows[0] == [] then [] else [rows[0][0]];
      CleanIdsAppend(head, FirstColumn(rows[1..]));
    }
  }

  function EndsWith(s: string, suffix: string): bool
  {
    |suffix| <= |s| && s[|s| - |suffix|..] == suffix
  }

  /**
   * The IDs `load_from_file` extracts from the chosen file (max3.py lines 97-108):
   * `lines` and `rows` are the file read as text lines and as CSV rows, `None`
   * when opening, decoding or parsing it raises. Only the reading that the
   * file's extension selects is consulted; any other extension yields no IDs.
   * `None` is the error dialog.
   */
  function IdsFromFile(path: string, lines: Option<seq<string>>, rows: Option<seq<seq<string>>>)
    : (r: Option<seq<string>>)
    ensures r.None? <==> (EndsWith(path, ".txt") && lines.None?)
                         || (!EndsWith(path, ".txt") && EndsWith(path, ".csv") && rows.None?)
    ensures r.Some? ==> forall k :: 0 <= k < |r.value| ==> IsClean(r.value[k])
    ensures r.Some? && r.value != [] ==> EndsWith(path, ".txt") || EndsWith(path, ".csv")
    ensures EndsWith(path, ".txt") && lines.Some? ==> r == Some(TxtIds(lines.value))
    ensures !EndsWith(path, ".txt") && EndsWith(path, ".csv") && rows.Some? ==> r == Some(CsvIds(rows.value))
  {
    if EndsWith(path, ".txt") then
      match lines
      case None => None
      case Some(ls) => Some(TxtIds(ls))
    else if EndsWith(path, ".csv") then
      match rows
      case None => None
      case Some(rs) =>
        CsvIdsAreFirstColumn(rs);
        Some(CsvIds(rs))
    else Some([])
  }

  /** What `load_from_file` writes into the ID field (max3.py line 112). */
  function JoinIds(ids: seq<string>): string
  {
    Join(", ", ids)
  }

  /** The joined text starts with the first ID and ends with the last. */
  lemma {:induction false} JoinEnds(sep: string, parts: seq<string>)
    requires |parts| >= 1
    ensures |parts[0]| <= |Join(sep, parts)|
    ensures Join(sep, parts)[..|parts[0]|] == parts[0]
    ensures |parts[|parts| - 1]| <= |Join(sep, parts)|
    ensures Join(sep, parts)[|Join(sep, parts)| - |parts[|parts| - 1]|..] == parts[|parts| - 1]
    decreases |parts|
  {
    if |parts| > 1 {
      JoinEnds(sep, parts[1..]);
      var j := Join(sep, parts);
      var t := Join(sep, parts[1..]);
      assert j == parts[0] + (sep + t);
      assert j[|j| - |t|..] == t;
    }
  }

  /** Each ID after the first as it appears between the commas of `", ".join(ids)`. */
  function Indent(ids: seq<string>): (r: seq<string>)
    ensures |r| == |ids|
  {
    if ids == [] then [] else [" " + ids[0]] + Indent(ids[1..])
  }

  /** Splitting `q + ", ".join(ids)` at the commas. */
  lemma {:induction false} SplitJoinedIds(q: string, ids: seq<string>)
    requires |ids| >= 1
    requires ',' !in q && forall k :: 0 <= k < |ids| ==> ',' !in ids[k]
    ensures Split(q + JoinIds(ids), ',') == [q + ids[0]] + Indent(ids[1..])
    decreases |ids|
  {
    if |ids| == 1 {
      SplitAfterPiece(q + ids[0], [], ',');
      assert q + ids[0] + [] == q + ids[0];
      assert q + JoinIds(ids) == q + ids[0] + [];
    } else {
      var tail := " " + JoinIds(ids[1..]);
      assert q + JoinIds(ids) == (q + ids[0]) + ([','] + tail);
      SplitAfterPiece(q + ids[0], [','] + tail, ',');
      assert ([','] + tail)[1..] == tail;
      SplitJoinedIds(" ", ids[1..]);
      assert Split([','] + tail, ',') == [[]] + Split(tail, ',');
      assert q + ids[0] + [] == q + ids[0];
      assert Indent(ids[1..]) == [" " + ids[1]] + Indent(ids[2..]);
      assert ids[1..][1..] == ids[2..];
    }
  }

  lemma {:induction false} CleanIndent(ids: seq<string>)
    requires forall k :: 0 <= k < |ids| ==> IsClean(ids[k])
    ensures CleanIds(Indent(ids)) == ids
    decreases |ids|
  {
    if ids != [] {
      StripPadded(" ", ids[0], "");
      assert " " + ids[0] + "" == " " + ids[0];
      CleanIndent(ids[1..]);
    }
  }

  /** The joined text of clean IDs is itself clean, so stripping the field leaves it as it is. */
  lemma JoinedIdsClean(ids: seq<string>)
    requires |ids| >= 1 && forall k :: 0 <= k < |ids| ==> IsClean(ids[k])
    ensures IsClean(JoinIds(ids))
  {
    var j := JoinIds(ids);
    var last := ids[|ids| - 1];
    JoinEnds(", ", ids);
    assert j[0] == j[..|ids[0]|][0] == ids[0][0];
    assert j[|j| - 1] == j[|j| - |last|..][|last| - 1] == last[|last| - 1];
  }

  /** The comma-separated pieces of a non-empty join clean back to the IDs. */
  lemma ParseJoinedIds(ids: seq<string>)
    requires |ids| >= 1
    requires forall k :: 0 <= k < |ids| ==> IsClean(ids[k]) && ',' !in ids[k]
    ensures CleanIds(Split(JoinIds(ids), ',')) == ids
  {
    var pieces := Split(JoinIds(ids), ',');
    assert pieces == [ids[0]] + Indent(ids[1..]) by {
      SplitJoinedIds([], ids);
      assert [] + JoinIds(ids) == JoinIds(ids);
      assert [] + ids[0] == ids[0];
    }
    calc {
      CleanIds(pieces);
      == { CleanIdsAppend([ids[0]], Indent(ids[1..])); }
      CleanIds([ids[0]]) + CleanIds(Indent(ids[1..]));
      == { CleanIdsOfClean([ids[0]]); CleanIndent(ids[1..]); }
      [ids[0]] + ids[1..];
      == ids;
    }
  }

  /**
   * Loading then sending round-trips: IDs written into the field as
   * `", ".join(ids)` come back, in order, from `send_bulk`'s stripping and
   * parsing of that field, provided none of them holds a comma.
   */
  lemma JoinedIdsParseBack(ids: seq<string>)
    requires forall k :: 0 <= k < |ids| ==> IsClean(ids[k]) && ',' !in ids[k]
    ensures ParseIds(Strip(JoinIds(ids))) == ids
  {
    if ids == [] {
      assert Strip(JoinIds(ids)) == [];
      assert Split([], ',') == [[]];
    } else {
      JoinedIdsClean(ids);
      StripClean(JoinIds(ids));
      ParseJoinedIds(ids);
    }
  }
}
