/** Chunks of a stream, in order. */
module Chunks {
  function Joined<T>(chunks: seq<seq<T>>): seq<T> {
    if |chunks| == 0 then [] else chunks[0] + Joined(chunks[1..])
  }

  lemma {:induction false} JoinedAppend<T>(chunks: seq<seq<T>>, last: seq<T>)
    ensures Joined(chunks + [last]) == Joined(chunks) + last
  {
    if |chunks| == 0 {
      assert [last][1..] == [];
    } else {
      JoinedAppend(chunks[1..], last);
      assert (chunks + [last])[1..] == chunks[1..] + [last];
    }
  }
}
