/** The session history of a nurse: an ordered log of conversational turns,
    newest last, holding at most the 20 most recent turns. */
module History {
  import opened Base

  const MaxTurns: nat := 20

  /** Only the user and the assistant ever have turns recorded. */
  datatype Role = User | Assistant

  datatype Turn = Turn(role: Role, content: string)

  /** `_add_to_history`: append one turn, then keep only the most recent
      `MaxTurns`, dropping the oldest first. */
  function AddTurn(h: seq<Turn>, t: Turn): (r: seq<Turn>)
    ensures |r| == Min(|h| + 1, MaxTurns)
    ensures r == (h + [t])[|h| + 1 - |r|..]
    ensures r[|r| - 1] == t
  {
    Last(h + [t], MaxTurns)
  }

  /** Several turns recorded one after the other. */
  function AddTurns(h: seq<Turn>, ts: seq<Turn>): seq<Turn>
    decreases |ts|
  {
    if ts == [] then h else AddTurns(AddTurn(h, ts[0]), ts[1..])
  }

  /** However many turns are recorded, the history is exactly the most recent
      `MaxTurns` of everything recorded so far, in the original order: after 25
      turns on an empty history, turns 6..25 remain. */
  lemma {:induction false} AddTurnsKeepsMostRecent(h: seq<Turn>, ts: seq<Turn>)
    requires |h| <= MaxTurns
    ensures AddTurns(h, ts) == Last(h + ts, MaxTurns)
    decreases |ts|
  {
    if ts == [] {
      assert h + ts == h;
    } else {
      var t := ts[0];
      var h1 := AddTurn(h, t);
      assert h1 == Last(h + [t], MaxTurns);
      AddTurnsKeepsMostRecent(h1, ts[1..]);
      assert AddTurns(h, ts) == Last(h1 + ts[1..], MaxTurns);
      LastOfLast(h + [t], ts[1..], MaxTurns);
      assert (h + [t]) + ts[1..] == h + ts by {
        assert ts == [t] + ts[1..];
      }
    }
  }

  /** Two turns recorded one after the other are the two newest turns. */
  lemma EndsWithPair(h: seq<Turn>, t: Turn, u: Turn)
    ensures |AddTurn(AddTurn(h, t), u)| >= 2
    ensures AddTurn(AddTurn(h, t), u)[|AddTurn(AddTurn(h, t), u)| - 2..] == [t, u]
  {
    var h1 := AddTurn(h, t);
    var h2 := AddTurn(h1, u);
    var k := |h1| + 1 - |h2|;
    assert |h2| >= 2;
    assert h2 == (h1 + [u])[k..];
    assert h2[|h2| - 2] == (h1 + [u])[k + |h2| - 2];
    assert k + |h2| - 2 == |h1| - 1;
    assert h2[|h2| - 2] == t;
    assert h2[|h2| - 1] == u;
    var pair := h2[|h2| - 2..];
    assert |pair| == 2 && pair[0] == t && pair[1] == u;
  }

  /** The text of each turn, in order: what the model is sent. */
  function Contents(h: seq<Turn>): (r: seq<string>)
    ensures |r| == |h|
    ensures forall i :: 0 <= i < |h| ==> r[i] == h[i].content
  {
    seq(|h|, i requires 0 <= i < |h| => h[i].content)
  }
}
