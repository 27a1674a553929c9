/**
 * The newline-separated test-id list: what `write_list` emits and `parse_list` reads back.
 * Text is modelled after UTF-8 decoding, as a `string`.
 */
module TestList {
  import opened Strings

  /** `write_list`: `"\n".join(list(test_ids) + [""])`. */
  function WriteList(ids: seq<string>): string {
    Join("\n", ids + [""])
  }

  /** Each id followed by a newline. */
  function Terminated(ids: seq<string>): string {
    if ids == [] then [] else ids[0] + "\n" + Terminated(ids[1..])
  }

  /** `write_list` puts a newline after every id, so an empty list gives the empty string. */
  lemma {:induction false} WriteListTerminates(ids: seq<string>)
    ensures WriteList(ids) == Terminated(ids)
  {
    if ids == [] {
      assert ids + [""] == [""];
    } else {
      WriteListTerminates(ids[1..]);
      assert (ids + [""])[1..] == ids[1..] + [""];
    }
  }

  lemma WriteListExample()
    ensures WriteList(["failing", "alsofailing"]) == "failing\nalsofailing\n"
  {
    WriteListTerminates(["failing", "alsofailing"]);
  }

  /** The stripped pieces that are not empty after stripping, in order. */
  function StrippedEntries(pieces: seq<string>): (r: seq<string>)
    ensures forall i :: 0 <= i < |r| ==> r[i] != [] && IsStripped(r[i])
    ensures |r| <= |pieces|
  {
    if pieces == [] then []
    else
      var e := Strip(pieces[|pieces| - 1]);
      StrippedEntries(pieces[..|pieces| - 1]) + (if e != [] then [e] else [])
  }

  /** `parse_list`: split on newlines, strip each piece, keep the non-empty ones. */
  function ParseList(text: string): (r: seq<string>)
    ensures forall i :: 0 <= i < |r| ==> r[i] != [] && IsStripped(r[i]) && '\n' !in r[i]
  {
    var pieces := Split(text, '\n');
    var r := StrippedEntries(pieces);
    NoNewlineSurvives(pieces);
    r
  }

  lemma {:induction false} NoNewlineSurvives(pieces: seq<string>)
    requires forall i :: 0 <= i < |pieces| ==> '\n' !in pieces[i]
    ensures forall i :: 0 <= i < |StrippedEntries(pieces)| ==> '\n' !in StrippedEntries(pieces)[i]
  {
    if pieces != [] {
      NoNewlineSurvives(pieces[..|pieces| - 1]);
    }
  }

  /** An id that survives a write and a parse unchanged. */
  predicate WellFormedId(id: string) {
    id != [] && '\n' !in id && IsStripped(id)
  }

  /** The empty piece after the final newline is dropped. */
  lemma StrippedEntriesOfBlank(pieces: seq<string>)
    ensures StrippedEntries(pieces + [""]) == StrippedEntries(pieces)
  {
    assert (pieces + [""])[..|pieces|] == pieces;
    assert Strip("") == [];
  }

  /** Well-formed ids are kept as they are. */
  lemma {:induction false} StrippedEntriesOfIds(ids: seq<string>)
    requires forall i :: 0 <= i < |ids| ==> WellFormedId(ids[i])
    ensures StrippedEntries(ids) == ids
  {
    if ids != [] {
      var init := ids[..|ids| - 1];
      StrippedEntriesOfIds(init);
      assert Strip(ids[|ids| - 1]) == ids[|ids| - 1];
      assert init + [ids[|ids| - 1]] == ids;
    }
  }

  /** Reading back a written list gives the same ids, for ids without newlines or surrounding whitespace. */
  lemma RoundTrip(ids: seq<string>)
    requires forall i :: 0 <= i < |ids| ==> WellFormedId(ids[i])
    ensures ParseList(WriteList(ids)) == ids
  {
    var parts := ids + [""];
    assert forall i :: 0 <= i < |parts| ==> '\n' !in parts[i];
    SplitJoin(parts, '\n');
    assert Split(WriteList(ids), '\n') == parts;
    StrippedEntriesOfBlank(ids);
    StrippedEntriesOfIds(ids);
  }

  /** Whatever `parse_list` returns is written and read back unchanged. */
  lemma ParseWriteParse(text: string)
    ensures ParseList(WriteList(ParseList(text))) == ParseList(text)
  {
    RoundTrip(ParseList(text));
  }
}
