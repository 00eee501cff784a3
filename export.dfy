/**
  The "Export User IDs" file: one line per listed id, each line the
  decimal id followed by a newline, in snapshot order.
 */
module Export {
  import opened Wrappers
  import opened Text

  /** The line written for one id: `f"{id}\n"`. */
  function ExportLine(id: int): string {
    IntToDecimal(id) + "\n"
  }

  /** The whole file for a snapshot of ids. */
  function ExportText(ids: seq<int>): string {
    if ids == [] then "" else ExportLine(ids[0]) + ExportText(ids[1..])
  }

  /** The decimal text of each id, in order. */
  function DecimalLines(ids: seq<int>): seq<string> {
    if ids == [] then [] else [IntToDecimal(ids[0])] + DecimalLines(ids[1..])
  }

  /** Reads lines that each hold one decimal id. */
  function ParseLines(lines: seq<string>): Option<seq<int>> {
    if lines == [] then Some([])
    else
      match (ParseInt(lines[0]), ParseLines(lines[1..]))
      case (Some(id), Some(rest)) => Some([id] + rest)
      case _ => None
  }

  /** Reads an export file back: newline-terminated lines of decimal ids. */
  function ParseExport(text: string): Option<seq<int>> {
    var lines := Split(text, '\n');
    if lines[|lines| - 1] != "" then None else ParseLines(lines[..|lines| - 1])
  }

  /** The file splits at its newlines into exactly one piece per id, each
      piece the id's decimal text, followed by the empty piece after the
      final newline. */
  lemma {:induction false} ExportLines(ids: seq<int>)
    ensures Split(ExportText(ids), '\n') == DecimalLines(ids) + [""]
  {
    if ids != [] {
      IntToDecimalRoundTrip(ids[0]);
      ExportLines(ids[1..]);
      assert ExportText(ids) == IntToDecimal(ids[0]) + ['\n'] + ExportText(ids[1..]);
      SplitAtSep(IntToDecimal(ids[0]), '\n', ExportText(ids[1..]));
    }
  }

  lemma {:induction false} ParseDecimalLines(ids: seq<int>)
    ensures ParseLines(DecimalLines(ids)) == Some(ids)
  {
    if ids != [] {
      var lines := DecimalLines(ids);
      IntToDecimalRoundTrip(ids[0]);
      assert lines[1..] == DecimalLines(ids[1..]);
      ParseDecimalLines(ids[1..]);
      assert [ids[0]] + ids[1..] == ids;
    }
  }

  /** Export fidelity: reading the file back yields exactly the snapshot,
      and the file holds one newline per id. */
  lemma ExportRoundTrip(ids: seq<int>)
    ensures ParseExport(ExportText(ids)) == Some(ids)
    ensures multiset(ExportText(ids))['\n'] == |ids|
  {
    ExportLines(ids);
    var lines := DecimalLines(ids);
    DecimalLinesLength(ids);
    assert (lines + [""])[..|ids|] == lines;
    ParseDecimalLines(ids);
    ExportNewlines(ids);
  }

  lemma {:induction false} DecimalLinesLength(ids: seq<int>)
    ensures |DecimalLines(ids)| == |ids|
  {
    if ids != [] {
      DecimalLinesLength(ids[1..]);
    }
  }

  lemma {:induction false} ExportNewlines(ids: seq<int>)
    ensures multiset(ExportText(ids))['\n'] == |ids|
  {
    if ids != [] {
      IntToDecimalRoundTrip(ids[0]);
      ExportNewlines(ids[1..]);
      assert multiset(IntToDecimal(ids[0]))['\n'] == 0;
    }
  }

  /** Appending an id to the snapshot appends its line to the file. */
  lemma {:induction false} ExportTextAppend(ids: seq<int>, id: int)
    ensures ExportText(ids + [id]) == ExportText(ids) + ExportLine(id)
  {
    if ids != [] {
      assert (ids + [id])[1..] == ids[1..] + [id];
      ExportTextAppend(ids[1..], id);
    }
  }

  lemma ExportPrefixStep(users: seq<int>, i: nat)
    requires i < |users|
    ensures ExportText(users[..i + 1]) == ExportText(users[..i]) + ExportLine(users[i])
  {
    assert users[..i + 1] == users[..i] + [users[i]];
    ExportTextAppend(users[..i], users[i]);
  }

  /** The export loop: opens the file empty and writes one line per id. */
  method WriteUsersFile(users: seq<int>) returns (contents: string)
    ensures contents == ExportText(users)
  {
    contents := [];
    var i := 0;
    while i < |users|
      invariant 0 <= i <= |users|
      invariant contents == ExportText(users[..i])
    {
      ExportPrefixStep(users, i);
      contents := contents + ExportLine(users[i]);
      i := i + 1;
    }
    assert users[..i] == users;
  }
}
