/** The output history of command sessions, as one log of emissions and completed reads. */
module SessionOutput {
  import opened Ordering

  const OUTPUT_LIMIT := 65536

  datatype Stream = Stdout | Stderr

  datatype Event =
    | Emitted(id: string, stream: Stream, text: string)
    | ReadDone(id: string)

  /** What a stream emitted since the last completed read of its session. */
  function Unread(log: seq<Event>, id: string, stream: Stream): string {
    if log == [] then "" else UnreadAfter(Unread(log[..|log| - 1], id, stream), log[|log| - 1], id, stream)
  }

  function UnreadAfter(before: string, e: Event, id: string, stream: Stream): string {
    match e
    case Emitted(i, s, text) => if i == id && s == stream then before + text else before
    case ReadDone(i) => if i == id then "" else before
  }

  /** What completed reads returned of a stream, put together. */
  function Delivered(log: seq<Event>, id: string, stream: Stream): string {
    if log == [] then ""
    else
      var front := log[..|log| - 1];
      var before := Delivered(front, id, stream);
      if log[|log| - 1] == ReadDone(id) then before + LastN(Unread(front, id, stream), OUTPUT_LIMIT) else before
  }

  function Emissions(log: seq<Event>, id: string, stream: Stream): string {
    if log == [] then ""
    else
      var before := Emissions(log[..|log| - 1], id, stream);
      match log[|log| - 1]
      case Emitted(i, s, text) => if i == id && s == stream then before + text else before
      case ReadDone(_) => before
  }

  /** What each completed read found waiting, in order. */
  function Pieces(log: seq<Event>, id: string, stream: Stream): seq<string> {
    if log == [] then []
    else
      var front := log[..|log| - 1];
      var before := Pieces(front, id, stream);
      if log[|log| - 1] == ReadDone(id) then before + [Unread(front, id, stream)] else before
  }

  function Joined(pieces: seq<string>): string {
    if pieces == [] then "" else Joined(pieces[..|pieces| - 1]) + pieces[|pieces| - 1]
  }

  /** The last 65536 characters of each. */
  function Tails(pieces: seq<string>): seq<string> {
    if pieces == [] then [] else Tails(pieces[..|pieces| - 1]) + [LastN(pieces[|pieces| - 1], OUTPUT_LIMIT)]
  }

  lemma JoinedSnoc(pieces: seq<string>, piece: string)
    ensures Joined(pieces + [piece]) == Joined(pieces) + piece
    ensures Joined(Tails(pieces + [piece])) == Joined(Tails(pieces)) + LastN(piece, OUTPUT_LIMIT)
  {
    assert (pieces + [piece])[..|pieces|] == pieces;
    var tails, tail := Tails(pieces), LastN(piece, OUTPUT_LIMIT);
    assert (tails + [tail])[..|tails|] == tails;
  }

  /** The completed reads cut the output into pieces, and each returned the last 65536
      characters of its piece. */
  lemma {:induction false} OutputPieces(log: seq<Event>, id: string, stream: Stream)
    ensures Emissions(log, id, stream) == Joined(Pieces(log, id, stream)) + Unread(log, id, stream)
    ensures Delivered(log, id, stream) == Joined(Tails(Pieces(log, id, stream)))
    decreases |log|
  {
    if log != [] {
      var front, e := log[..|log| - 1], log[|log| - 1];
      OutputPieces(front, id, stream);
      hide Joined, Tails, LastN;
      var pieces, unread := Pieces(front, id, stream), Unread(front, id, stream);
      JoinedSnoc(pieces, unread);
      if e == ReadDone(id) {
        assert Joined(pieces) + unread + "" == Joined(pieces) + unread;
      } else if e.Emitted? {
        ConcatAssociative(Joined(pieces), unread, e.text);
      }
    }
  }

  /** Characters of a stream that no completed read returned. */
  function Dropped(log: seq<Event>, id: string, stream: Stream): nat {
    if log == [] then 0
    else
      var front := log[..|log| - 1];
      var before := Dropped(front, id, stream);
      if log[|log| - 1] == ReadDone(id) then before + Overflow(Unread(front, id, stream)) else before
  }

  function Overflow(text: string): nat {
    if |text| > OUTPUT_LIMIT then |text| - OUTPUT_LIMIT else 0
  }

  predicate Overflowed(log: seq<Event>, id: string) {
    |Unread(log, id, Stdout)| > OUTPUT_LIMIT || |Unread(log, id, Stderr)| > OUTPUT_LIMIT
  }

  lemma UnreadSnoc(log: seq<Event>, e: Event, id: string, stream: Stream)
    ensures Unread(log + [e], id, stream) == UnreadAfter(Unread(log, id, stream), e, id, stream)
  {
    assert (log + [e])[..|log|] == log;
  }

  /** Keeping the tail of a tail is keeping the tail of the whole. */
  lemma TailOfTail(all: string, text: string)
    ensures LastN(LastN(all, OUTPUT_LIMIT) + text, OUTPUT_LIMIT) == LastN(all + text, OUTPUT_LIMIT)
    ensures |all + text| > OUTPUT_LIMIT <==> |all| > OUTPUT_LIMIT || |LastN(all, OUTPUT_LIMIT) + text| > OUTPUT_LIMIT
  {
    var kept := LastN(all, OUTPUT_LIMIT);
    var cut := |all| - |kept|;
    assert all == all[..cut] + kept;
    assert all + text == all[..cut] + (kept + text);
  }

  /** Every emitted character is returned by one completed read, dropped by one, or still
      waiting; the reads lose nothing exactly when no read found more than the limit. */
  lemma {:induction false} OutputConserved(log: seq<Event>, id: string, stream: Stream)
    ensures |Emissions(log, id, stream)| ==
            |Delivered(log, id, stream)| + Dropped(log, id, stream) + |Unread(log, id, stream)|
    ensures Delivered(log, id, stream) + Unread(log, id, stream) == Emissions(log, id, stream) <==>
            Dropped(log, id, stream) == 0
    decreases |log|
  {
    if log != [] {
      var front, e := log[..|log| - 1], log[|log| - 1];
      OutputConserved(front, id, stream);
      var unread := Unread(front, id, stream);
      match e
      case Emitted(i, s, text) =>
        if i == id && s == stream {
          assert Delivered(front, id, stream) + (unread + text) == (Delivered(front, id, stream) + unread) + text;
          SameWithout(Delivered(front, id, stream) + unread, Emissions(front, id, stream), text);
        }
      case ReadDone(i) =>
        if i == id && Overflow(unread) == 0 { assert LastN(unread, OUTPUT_LIMIT) == unread; }
        assert Delivered(log, id, stream) + "" == Delivered(log, id, stream);
    }
  }

  lemma SameWithout(a: string, b: string, text: string)
    ensures a + text == b + text <==> a == b
  {
    if a + text == b + text {
      assert |a| == |b|;
      assert a == (a + text)[..|a|] == (b + text)[..|b|] == b;
    }
  }
}
