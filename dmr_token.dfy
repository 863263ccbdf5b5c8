/** The diagnostic token that the dispatch handler attaches to a trace's begin event:
    one line describing the operation, or one piece per step of a composite. */
module DmrToken {
  import opened Optional
  import opened DmrOperation

  /** The `name` child's text when it is defined, and nothing otherwise. */
  function NameText(o: Op): (s: string)
    ensures o.name.Some? ==> s == o.name.value
    ensures o.name.None? ==> s == ""
  {
    if o.name.Some? then o.name.value else ""
  }

  /** The token of one (non-composite) operation: address, op, child type and name. */
  function OpToken(c: Codec, o: Op): string {
    c.addressText(o.address) + ": " + c.nodeText(o.op) + "; " + AsString(c, o.childType) + "; " + NameText(o)
  }

  /** The pieces " _" + OpToken(step) of the given steps, in order. */
  function StepTokens(c: Codec, steps: seq<Op>): string
    decreases |steps|
  {
    if steps == [] then "" else StepTokens(c, steps[..|steps| - 1]) + " _" + OpToken(c, steps[|steps| - 1])
  }

  /** The token of any operation: a composite is described by its steps alone. */
  function Token(c: Codec, o: Op): string {
    if o.op == COMPOSITE then StepTokens(c, o.steps) else OpToken(c, o)
  }

  /** Builds the token with a buffer, one step at a time. */
  method GetToken(c: Codec, o: Op) returns (t: string)
    ensures t == Token(c, o)
  {
    t := "";
    if o.op == COMPOSITE {
      for i := 0 to |o.steps|
        invariant t == StepTokens(c, o.steps[..i])
      {
        assert o.steps[..i + 1][..i] == o.steps[..i];
        t := t + " _" + OpToken(c, o.steps[i]);
      }
      assert o.steps[..|o.steps|] == o.steps;
    } else {
      t := OpToken(c, o);
    }
  }

  /** The separators sit at fixed places between the address, the op, the child type and
      the name, whatever the texts are. */
  lemma OpTokenLayout(c: Codec, o: Op)
    ensures var a, p, ct, t := c.addressText(o.address), c.nodeText(o.op), AsString(c, o.childType), OpToken(c, o);
      && |t| == |a| + |p| + |ct| + 6 + |NameText(o)|
      && t[..|a|] == a
      && t[|a|..|a| + 2] == ": "
      && t[|a| + 2..|a| + 2 + |p|] == p
      && t[|a| + 2 + |p|..|a| + 4 + |p|] == "; "
      && t[|a| + 4 + |p|..|a| + 4 + |p| + |ct|] == ct
      && t[|a| + 4 + |p| + |ct|..|a| + 6 + |p| + |ct|] == "; "
      && t[|a| + 6 + |p| + |ct|..] == NameText(o)
  {
  }

  /** The name is the only optional part: with it undefined the token ends at the last
      separator, and defining it appends exactly its text. */
  lemma NameAppendedOnlyIfDefined(c: Codec, o: Op)
    ensures var bare := OpToken(c, o.(name := None));
      && |bare| >= 2 && bare[|bare| - 2..] == "; "
      && OpToken(c, o) == bare + NameText(o)
  {
  }

  /** The token of a concatenation of steps is the concatenation of their tokens. */
  lemma {:induction false} StepTokensAppend(c: Codec, s1: seq<Op>, s2: seq<Op>)
    ensures StepTokens(c, s1 + s2) == StepTokens(c, s1) + StepTokens(c, s2)
    decreases |s2|
  {
    if s2 == [] {
      assert s1 + s2 == s1;
    } else {
      var init, last := s2[..|s2| - 1], s2[|s2| - 1];
      assert (s1 + s2)[..|s1 + s2| - 1] == s1 + init;
      StepTokensAppend(c, s1, init);
    }
  }

  /** Step i contributes exactly the piece " _" + OpToken(step i), placed right after the
      pieces of the steps before it: N steps give N marked pieces, in step order. */
  lemma StepTokenAt(c: Codec, steps: seq<Op>, i: nat)
    requires i < |steps|
    ensures var off, piece, all := |StepTokens(c, steps[..i])|, " _" + OpToken(c, steps[i]), StepTokens(c, steps);
      && off + |piece| <= |all|
      && all[off..off + |piece|] == piece
      && |StepTokens(c, steps[..i + 1])| == off + |piece|
  {
    var piece := " _" + OpToken(c, steps[i]);
    assert [steps[i]][..0] == [];
    assert StepTokens(c, [steps[i]]) == piece;
    assert steps[..i + 1] == steps[..i] + [steps[i]];
    StepTokensAppend(c, steps[..i], [steps[i]]);
    assert steps == steps[..i + 1] + steps[i + 1..];
    StepTokensAppend(c, steps[..i + 1], steps[i + 1..]);
  }

  /** A composite's own address, child type and name never reach its token. */
  lemma CompositeTokenIgnoresOwnFields(c: Codec, o: Op, address: Address, childType: Option<string>, name: Option<string>)
    requires o.op == COMPOSITE
    ensures Token(c, o) == Token(c, o.(address := address, childType := childType, name := name))
    ensures Token(c, o) == StepTokens(c, o.steps)
  {
  }
}
