/**
 * The prompt layout: a system message holding the configured prompt, then a user message that
 * lists the amoeba's position, its energy and every object it sees, one line each. Number
 * formatting (`toFixed`) is the runtime's.
 */
module PromptBuilder {
  import opened Wrappers
  import opened Text
  import opened Js
  import opened Types

  const NOTHING_NEARBY: string := "Surroundings: Nothing detected nearby."

  /** `k: v` of one detail, numbers with one decimal and strings verbatim. */
  function DetailText(entry: (string, DetailValue), rt: Runtime): string {
    entry.0 + ": " + (match entry.1 case Num(n) => rt.toFixed(n, 1) case Str(s) => s)
  }

  function DetailTexts(details: seq<(string, DetailValue)>, rt: Runtime): (r: seq<string>)
    ensures |r| == |details|
    ensures forall i :: 0 <= i < |details| ==> r[i] == DetailText(details[i], rt)
  {
    seq(|details|, i requires 0 <= i < |details| => DetailText(details[i], rt))
  }

  /** The line of one visible object; the bracketed suffix only when it has details. */
  function ObjectLine(o: NearbyObject, rt: Runtime): string {
    var head := "- " + o.kind.Name() + " at relative (" + rt.toFixed(o.relativePosition.x, 4) + ", "
      + rt.toFixed(o.relativePosition.y, 4) + "), distance: " + rt.toFixed(o.distance, 4) + " cm";
    if o.details.Some? then head + " [" + Join(DetailTexts(o.details.value, rt), ", ") + "]" else head
  }

  function ObjectLines(surroundings: seq<NearbyObject>, rt: Runtime): (r: seq<string>)
    ensures |r| == |surroundings|
    ensures forall i :: 0 <= i < |surroundings| ==> r[i] == ObjectLine(surroundings[i], rt)
  {
    seq(|surroundings|, i requires 0 <= i < |surroundings| => ObjectLine(surroundings[i], rt))
  }

  /** The first three lines: position with 4 decimals, energy with 1 decimal, a blank line. */
  function HeadLines(amoeba: AmoebaState, rt: Runtime): seq<string> {
    ["Position: (" + rt.toFixed(amoeba.position.x, 4) + ", " + rt.toFixed(amoeba.position.y, 4) + ")",
     "Energy: " + rt.toFixed(amoeba.energy, 1),
     ""]
  }

  /** The lines of the user message, before they are joined with newlines. */
  function UserLines(amoeba: AmoebaState, surroundings: seq<NearbyObject>, rt: Runtime): (r: seq<string>)
    ensures |r| >= 4 && r[..3] == HeadLines(amoeba, rt)
    ensures surroundings == [] <==> |r| == 4 && r[3] == NOTHING_NEARBY
    ensures surroundings != [] ==>
      && |r| == 4 + |surroundings|
      && r[3] == "Nearby objects (" + NatToString(|surroundings|) + "):"
      && r[4..] == ObjectLines(surroundings, rt)
  {
    if surroundings == [] then HeadLines(amoeba, rt) + [NOTHING_NEARBY]
    else (HeadLines(amoeba, rt) + ["Nearby objects (" + NatToString(|surroundings|) + "):"]
      + ObjectLines(surroundings, rt))
  }

  /** `buildUserMessage`: the lines are collected one by one and then joined. */
  method BuildUserMessage(amoeba: AmoebaState, surroundings: seq<NearbyObject>, rt: Runtime)
    returns (text: string)
    ensures text == Join(UserLines(amoeba, surroundings, rt), "\n")
  {
    var lines: seq<string> := [];
    lines := lines + ["Position: (" + rt.toFixed(amoeba.position.x, 4) + ", " + rt.toFixed(amoeba.position.y, 4) + ")"];
    lines := lines + ["Energy: " + rt.toFixed(amoeba.energy, 1)];
    lines := lines + [""];
    if |surroundings| == 0 {
      lines := lines + [NOTHING_NEARBY];
      assert lines == UserLines(amoeba, surroundings, rt);
    } else {
      lines := lines + ["Nearby objects (" + NatToString(|surroundings|) + "):"];
      var objectLines := DescribeObjects(surroundings, rt);
      lines := lines + objectLines;
      assert lines == UserLines(amoeba, surroundings, rt);
    }
    text := Join(lines, "\n");
  }

  /** The loop of `buildUserMessage` over the visible objects, one line each. */
  method DescribeObjects(surroundings: seq<NearbyObject>, rt: Runtime) returns (lines: seq<string>)
    ensures lines == ObjectLines(surroundings, rt)
  {
    lines := [];
    var i := 0;
    while i < |surroundings|
      invariant 0 <= i <= |surroundings| && |lines| == i
      invariant forall j :: 0 <= j < i ==> lines[j] == ObjectLine(surroundings[j], rt)
    {
      var o := surroundings[i];
      var detail := "- " + o.kind.Name() + " at relative (" + rt.toFixed(o.relativePosition.x, 4) + ", "
        + rt.toFixed(o.relativePosition.y, 4) + "), distance: " + rt.toFixed(o.distance, 4) + " cm";
      if o.details.Some? {
        detail := detail + " [" + Join(DetailTexts(o.details.value, rt), ", ") + "]";
      }
      assert detail == ObjectLine(o, rt);
      lines := lines + [detail];
      i := i + 1;
    }
  }

  /** `buildMessages`: the system prompt verbatim, then the user message. */
  method BuildMessages(systemPrompt: string, amoeba: AmoebaState, surroundings: seq<NearbyObject>, rt: Runtime)
    returns (messages: seq<Message>)
    ensures |messages| == 2
    ensures messages[0] == Message(System, systemPrompt)
    ensures messages[1] == Message(User, Join(UserLines(amoeba, surroundings, rt), "\n"))
  {
    var userContent := BuildUserMessage(amoeba, surroundings, rt);
    messages := [Message(System, systemPrompt), Message(User, userContent)];
  }

  /** The runtime's number formatting never produces a line break. */
  ghost predicate FormatsOnOneLine(rt: Runtime) {
    forall v: real, k: nat :: '\n' !in rt.toFixed(v, k)
  }

  /** No detail key or string value holds a line break. */
  predicate DetailsOnOneLine(surroundings: seq<NearbyObject>) {
    forall i :: 0 <= i < |surroundings| && surroundings[i].details.Some? ==>
      forall j :: 0 <= j < |surroundings[i].details.value| ==>
        var entry := surroundings[i].details.value[j];
        '\n' !in entry.0 && (entry.1.Str? ==> '\n' !in entry.1.s)
  }

  lemma ObjectLineOnOneLine(o: NearbyObject, rt: Runtime)
    requires FormatsOnOneLine(rt)
    requires o.details.Some? ==> forall j :: 0 <= j < |o.details.value| ==>
      '\n' !in o.details.value[j].0 && (o.details.value[j].1.Str? ==> '\n' !in o.details.value[j].1.s)
    ensures '\n' !in ObjectLine(o, rt)
  {
    assert '\n' !in o.kind.Name() by { assert o.kind.Name() in ["food", "poison", "enemy", "amoeba"]; }
    if o.details.Some? {
      var texts := DetailTexts(o.details.value, rt);
      forall j | 0 <= j < |texts|
        ensures '\n' !in texts[j]
      {
        assert texts[j] == DetailText(o.details.value[j], rt);
      }
      JoinAvoids(texts, ", ", '\n');
    }
  }

  /** The three head lines hold no line break. */
  lemma HeadLinesOnOneLine(amoeba: AmoebaState, rt: Runtime)
    requires FormatsOnOneLine(rt)
    ensures forall i :: 0 <= i < 3 ==> '\n' !in HeadLines(amoeba, rt)[i]
  {
    assert '\n' !in rt.toFixed(amoeba.position.x, 4) && '\n' !in rt.toFixed(amoeba.position.y, 4);
    assert '\n' !in rt.toFixed(amoeba.energy, 1);
  }

  /** No object line holds a line break. */
  lemma ObjectLinesOnOneLine(surroundings: seq<NearbyObject>, rt: Runtime)
    requires FormatsOnOneLine(rt)
    requires DetailsOnOneLine(surroundings)
    ensures forall i :: 0 <= i < |surroundings| ==> '\n' !in ObjectLines(surroundings, rt)[i]
  {
    forall i | 0 <= i < |surroundings|
      ensures '\n' !in ObjectLines(surroundings, rt)[i]
    {
      ObjectLineOnOneLine(surroundings[i], rt);
    }
  }

  /**
   * The user message splits back into exactly its lines: 4 of them when nothing is seen,
   * otherwise the three head lines, the count header and one line per object in input order.
   */
  lemma UserMessageLines(amoeba: AmoebaState, surroundings: seq<NearbyObject>, rt: Runtime)
    requires FormatsOnOneLine(rt)
    requires DetailsOnOneLine(surroundings)
    ensures Split(Join(UserLines(amoeba, surroundings, rt), "\n"), '\n') == UserLines(amoeba, surroundings, rt)
    ensures |Split(Join(UserLines(amoeba, surroundings, rt), "\n"), '\n')|
      == if surroundings == [] then 4 else 4 + |surroundings|
  {
    var lines := UserLines(amoeba, surroundings, rt);
    HeadLinesOnOneLine(amoeba, rt);
    ObjectLinesOnOneLine(surroundings, rt);
    forall i | 0 <= i < |lines|
      ensures '\n' !in lines[i]
    {
      if i < 3 {
        assert lines[i] == lines[..3][i];
      } else if i == 3 {
        if surroundings != [] {
          var digits := NatToString(|surroundings|);
          forall k | 0 <= k < |digits|
            ensures digits[k] != '\n'
          {
          }
        }
      } else {
        assert lines[i] == lines[4..][i - 4];
      }
    }
    SplitJoin(lines, '\n');
  }
}
