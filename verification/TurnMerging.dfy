// Conversation history for the model: consecutive turns of one role are merged,
// unless either carries a function call or a function response.

module TurnMerging {

  datatype Role = User | Model

  datatype Part = Text(text: string) | FunctionCall(name: string) | FunctionResponse(name: string, output: string)

  datatype Content = Content(role: Role, parts: seq<Part>)

  predicate HasFunctionPart(c: Content) {
    exists i :: 0 <= i < |c.parts| && !c.parts[i].Text?
  }

  predicate Mergeable(a: Content, b: Content) {
    a.role == b.role && !HasFunctionPart(a) && !HasFunctionPart(b)
  }

  function Absorb(merged: seq<Content>, content: Content): seq<Content> {
    var n := |merged|;
    if n > 0 && Mergeable(merged[n - 1], content)
    then merged[n - 1 := Content(content.role, merged[n - 1].parts + content.parts)]
    else merged + [content]
  }

  function Merge(contents: seq<Content>): seq<Content> {
    if contents == [] then [] else Absorb(Merge(contents[..|contents| - 1]), contents[|contents| - 1])
  }

  method MergeConsecutiveSameRole(contents: seq<Content>) returns (merged: seq<Content>)
    ensures merged == Merge(contents)
  {
    merged := [];
    for k := 0 to |contents|
      invariant merged == Merge(contents[..k])
    {
      var content := contents[k];
      assert contents[..k + 1][..k] == contents[..k];
      if |merged| > 0 {
        var last := merged[|merged| - 1];
        if last.role == content.role && !HasFunctionPart(last) && !HasFunctionPart(content) {
          last := last.(parts := last.parts + content.parts);
          merged := merged[|merged| - 1 := last];
          continue;
        }
      }
      merged := merged + [content];
    }
    assert contents[..|contents|] == contents;
  }

  // ----- What merging keeps ---------------------------------------------------------

  // Every part, in order, with the role that said it.
  datatype Said = Said(role: Role, part: Part)

  function Tagged(c: Content): seq<Said> {
    seq(|c.parts|, i requires 0 <= i < |c.parts| => Said(c.role, c.parts[i]))
  }

  function Transcript(contents: seq<Content>): seq<Said> {
    if contents == [] then [] else Transcript(contents[..|contents| - 1]) + Tagged(contents[|contents| - 1])
  }

  // Turns that carry a function part.
  function FunctionTurns(contents: seq<Content>): seq<Content> {
    if contents == [] then []
    else
      var last := contents[|contents| - 1];
      FunctionTurns(contents[..|contents| - 1]) + if HasFunctionPart(last) then [last] else []
  }

  lemma AbsorbKeeps(merged: seq<Content>, content: Content)
    ensures Transcript(Absorb(merged, content)) == Transcript(merged) + Tagged(content)
    ensures FunctionTurns(Absorb(merged, content))
         == FunctionTurns(merged) + if HasFunctionPart(content) then [content] else []
  {
    var n := |merged|;
    var after := Absorb(merged, content);
    if n > 0 && Mergeable(merged[n - 1], content) {
      var last := merged[n - 1];
      var joined := Content(content.role, last.parts + content.parts);
      assert after[..n - 1] == merged[..n - 1] && after[n - 1] == joined;
      assert Tagged(joined) == Tagged(last) + Tagged(content);
      assert !HasFunctionPart(joined);
      assert FunctionTurns(merged) + [] == FunctionTurns(merged);
    } else {
      assert after[..n] == merged;
    }
  }

  // Nothing said is lost, reordered or put into the other role's mouth, and every
  // function turn stays a turn of its own.
  lemma {:induction false} MergingKeepsTranscript(contents: seq<Content>)
    ensures Transcript(Merge(contents)) == Transcript(contents)
    ensures FunctionTurns(Merge(contents)) == FunctionTurns(contents)
  {
    if contents != [] {
      MergingKeepsTranscript(contents[..|contents| - 1]);
      AbsorbKeeps(Merge(contents[..|contents| - 1]), contents[|contents| - 1]);
    }
  }

  // No neighbours are left that could be merged.
  ghost predicate Settled(contents: seq<Content>) {
    forall i, j :: 0 <= i && j == i + 1 && j < |contents| ==> !Mergeable(contents[i], contents[j])
  }

  lemma {:induction false} MergingSettles(contents: seq<Content>)
    ensures Settled(Merge(contents))
    ensures contents != [] ==> Merge(contents) != []
    ensures contents != [] ==>
              var m := Merge(contents);
              m[|m| - 1].role == contents[|contents| - 1].role
              && (HasFunctionPart(m[|m| - 1]) <==> HasFunctionPart(contents[|contents| - 1]))
  {
    if contents != [] {
      var merged := Merge(contents[..|contents| - 1]);
      var content := contents[|contents| - 1];
      MergingSettles(contents[..|contents| - 1]);
      var n := |merged|;
      if n > 0 && Mergeable(merged[n - 1], content) {
        var joined := Content(content.role, merged[n - 1].parts + content.parts);
        assert !HasFunctionPart(joined);
        if n > 1 {
          assert !Mergeable(merged[n - 2], merged[n - 1]);
        }
      }
    }
  }

  lemma {:induction false} SettledIsFixed(contents: seq<Content>)
    requires Settled(contents)
    ensures Merge(contents) == contents
  {
    if contents != [] {
      var n := |contents|;
      SettledIsFixed(contents[..n - 1]);
      if n > 1 {
        assert !Mergeable(contents[n - 2], contents[n - 1]);
      }
      assert contents == contents[..n - 1] + [contents[n - 1]];
    }
  }

  predicate IsPlain(c: Content) {
    forall i :: 0 <= i < |c.parts| ==> c.parts[i].Text?
  }

  // A turn joins the one before it exactly when both are plain and of one role.
  lemma NextTurnJoinsIff(contents: seq<Content>, next: Content)
    ensures |Merge(contents + [next])| == |Merge(contents)|
       <==> && contents != []
            && contents[|contents| - 1].role == next.role && IsPlain(contents[|contents| - 1]) && IsPlain(next)
  {
    assert (contents + [next])[..|contents|] == contents;
    MergingSettles(contents);
    assert IsPlain(next) <==> !HasFunctionPart(next);
    if contents != [] {
      var last := contents[|contents| - 1];
      assert IsPlain(last) <==> !HasFunctionPart(last);
    }
  }

  // Merging once is enough.
  lemma MergingIsIdempotent(contents: seq<Content>)
    ensures Merge(Merge(contents)) == Merge(contents)
  {
    MergingSettles(contents);
    SettledIsFixed(Merge(contents));
  }

  // The new user turn is pushed after the merge. What is sent then still holds two
  // neighbouring plain user turns exactly when the stored history ended with one:
  // a user message that never got its reply.
  lemma SentHistoryIsSettledIff(history: seq<Content>, userText: string)
    ensures Settled(Merge(history) + [Content(User, [Text(userText)])])
       <==> !(history != [] && history[|history| - 1].role == User && !HasFunctionPart(history[|history| - 1]))
  {
    var turn := Content(User, [Text(userText)]);
    MergingSettles(history);
    PushKeepsSettledIff(Merge(history), turn);
    assert !HasFunctionPart(turn);
  }

  lemma PushKeepsSettledIff(merged: seq<Content>, turn: Content)
    requires Settled(merged)
    ensures Settled(merged + [turn]) <==> merged == [] || !Mergeable(merged[|merged| - 1], turn)
  {
    var n, sent := |merged|, merged + [turn];
    assert forall i :: 0 <= i < n ==> sent[i] == merged[i];
    assert sent[n] == turn;
  }
}
