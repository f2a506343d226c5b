/**
 * The result framing of queryAll: the (key, record) pairs of a range scan, in
 * the scan's order, become a JSON array text. A flag suppresses the separator
 * before the first member.
 */
module Framing {

  /** One array member: the key in quotes and the stored record bytes as they are. */
  function Member(entry: (string, string)): string
  {
    "{\"Key\":" + "\"" + entry.0 + "\"" + ", \"Record\":" + entry.1 + "}\n"
  }

  /** A member as the loop writes it: after "\n," unless it is the first. */
  function Piece(first: bool, entry: (string, string)): string
  {
    if first then Member(entry) else "\n," + Member(entry)
  }

  /** The pieces of all entries, in order. */
  function Members(entries: seq<(string, string)>): string
    decreases |entries|
  {
    if entries == [] then ""
    else Members(entries[..|entries| - 1]) + Piece(|entries| == 1, entries[|entries| - 1])
  }

  /** The whole response text. */
  function Framed(entries: seq<(string, string)>): string
  {
    "[" + Members(entries) + "\n]"
  }

  /** The text for a prefix of the scan is a prefix of the text for the whole scan. */
  lemma {:induction false} MembersPrefix(entries: seq<(string, string)>, j: nat)
    requires j <= |entries|
    ensures Members(entries[..j]) <= Members(entries)
    decreases |entries|
  {
    if j < |entries| {
      var front := entries[..|entries| - 1];
      assert entries[..j] == front[..j];
      MembersPrefix(front, j);
    } else {
      assert entries[..j] == entries;
    }
  }

  /**
   * Members keep the scan's order: the text starts with the members of the
   * entries before i, then member i (after "\n," unless i is 0), and only then
   * come the members after it.
   */
  lemma MemberInPlace(entries: seq<(string, string)>, i: nat)
    requires i < |entries|
    ensures Members(entries[..i]) + Piece(i == 0, entries[i]) <= Members(entries)
  {
    assert entries[..i + 1][..i] == entries[..i];
    MembersPrefix(entries, i + 1);
  }

  /** String concatenation regrouped, so the loop need not prove it element by element. */
  lemma Associative(a: string, b: string, c: string)
    ensures (a + b) + c == a + (b + c)
  {
  }

  /** Extending the scanned prefix by entry i appends its piece. */
  lemma MembersStep(entries: seq<(string, string)>, i: nat)
    requires i < |entries|
    ensures Members(entries[..i + 1]) == Members(entries[..i]) + Piece(i == 0, entries[i])
  {
    assert entries[..i + 1][..i] == entries[..i];
  }

  /** A single result is framed without any separator. */
  lemma FramedSingle(e: (string, string))
    ensures Framed([e]) == "[" + Member(e) + "\n]"
  {
    assert [e][..0] == [];
    assert Members([e]) == Member(e);
  }

  /** The queryAll loop: "[", each member with the separator flag, "\n]". */
  method FrameResults(entries: seq<(string, string)>) returns (text: string)
    ensures text == Framed(entries)
    ensures entries == [] ==> text == "[\n]"
  {
    text := "[";
    var alreadyWritten := false;
    for i := 0 to |entries|
      invariant alreadyWritten <==> i > 0
      invariant text == "[" + Members(entries[..i])
    {
      ghost var before := text;
      if alreadyWritten {
        text := text + "\n,";
        Associative(before, "\n,", Member(entries[i]));
      }
      text := text + Member(entries[i]);
      alreadyWritten := true;
      MembersStep(entries, i);
      Associative("[", Members(entries[..i]), Piece(i == 0, entries[i]));
    }
    assert entries[..|entries|] == entries;
    text := text + "\n]";
  }
}
