/**
 * The appender that adds one `Add(name, handler)` overload per event to the
 * `EventSystem` interface, renaming event parameters as it goes.
 */
module EventSystemAppender {
  import opened Wrappers
  import opened Strings
  import opened Models
  import opened TypeProjection
  import opened MethodParameterRendering
  import opened WriterState
  import opened WriterExtensions

  const EventSystemClassName := "EventSystem"

  /** The one parameter expression the documentation uses as a name. */
  const VehicleHandleName := "entity_manager->" + "component<" + "VehicleScriptingComponent>" + "(vehicle_handle)"

  /** The text after the last `.` (`Split('.').Last()`), or all of `s`
      when it has none. */
  function LastSegment(s: string): (r: string)
    ensures '.' !in r
    ensures |r| <= |s| && r == s[|s| - |r|..]
    ensures |r| < |s| ==> s[|s| - |r| - 1] == '.'
    decreases |s|
  {
    if s == [] then []
    else if s[|s| - 1] == '.' then []
    else
      var r := LastSegment(s[..|s| - 1]);
      assert s[..|s| - 1][|s| - 1 - |r|..] + [s[|s| - 1]] == s[|s| - |r| - 1..];
      r + [s[|s| - 1]]
  }

  /** `SanitizeEventParameterName`. */
  function SanitizeEventParameterName(name: string): (r: string)
    ensures name == VehicleHandleName ==> r == "vehicle"
    ensures name != VehicleHandleName && '.' !in name ==> r == name
    ensures name != VehicleHandleName && '.' in name ==>
      |r| < |name| && r == name[|name| - |r|..] && name[|name| - |r| - 1] == '.'
  {
    if name == VehicleHandleName then "vehicle"
    else if '.' in name then LastSegment(name)
    else name
  }

  /** The handle expression is the only name the special case touches. */
  lemma VehicleHandle()
    ensures SanitizeEventParameterName(VehicleHandleName) == "vehicle"
    ensures '.' !in VehicleHandleName
  {
  }

  /** A sanitised name never contains a dot. */
  lemma SanitizedHasNoDot(name: string)
    ensures '.' !in SanitizeEventParameterName(name)
  {
  }

  /** Sanitising twice is sanitising once, unless the first pass produced
      the handle expression itself. */
  lemma SanitizeIdempotent(name: string)
    requires SanitizeEventParameterName(name) != VehicleHandleName
    ensures SanitizeEventParameterName(SanitizeEventParameterName(name)) == SanitizeEventParameterName(name)
  {
    var r := SanitizeEventParameterName(name);
    assert '.' !in r by {
      SanitizedHasNoDot(name);
    }
    assert r != VehicleHandleName;
    assert SanitizeEventParameterName(r) == r;
  }

  /** That exception is real: the handle expression has no dot, so it can be
      the last segment of a dotted name, and a second pass turns it into
      `vehicle`. */
  lemma HandleAsLastSegment(prefix: string)
    requires '.' !in prefix
    ensures SanitizeEventParameterName(prefix + "." + VehicleHandleName) == VehicleHandleName
    ensures SanitizeEventParameterName(VehicleHandleName) == "vehicle"
  {
    var name := prefix + "." + VehicleHandleName;
    assert name[|prefix|] == '.';
    assert name != VehicleHandleName by { assert '.' !in VehicleHandleName; }
    var r := LastSegment(name);
    assert r == name[|name| - |r|..];
  }

  /** No name in the list sanitises to the handle expression. */
  predicate NoHandleAfterRename(ps: seq<Parameter>) {
    forall i :: 0 <= i < |ps| ==> SanitizeEventParameterName(ps[i].name) != VehicleHandleName
  }

  /** Every parameter renamed, everything else kept. */
  function SanitizedParameters(ps: seq<Parameter>): (r: seq<Parameter>)
    ensures |r| == |ps|
    ensures forall i :: 0 <= i < |ps| ==> r[i] == ps[i].(name := SanitizeEventParameterName(ps[i].name))
  {
    seq(|ps|, i requires 0 <= i < |ps| => ps[i].(name := SanitizeEventParameterName(ps[i].name)))
  }

  function SanitizedEvent(e: Event): Event {
    e.(parameters := SanitizedParameters(e.parameters))
  }

  function SanitizedEvents(es: seq<Event>): (r: seq<Event>)
    ensures |r| == |es|
    ensures forall i :: 0 <= i < |es| ==> r[i] == SanitizedEvent(es[i])
  {
    seq(|es|, i requires 0 <= i < |es| => SanitizedEvent(es[i]))
  }

  lemma SanitizedEventsAppend(es: seq<Event>, e: Event)
    ensures SanitizedEvents(es + [e]) == SanitizedEvents(es) + [SanitizedEvent(e)]
  {
    assert |SanitizedEvents(es + [e])| == |SanitizedEvents(es) + [SanitizedEvent(e)]|;
    forall k | 0 <= k < |es| + 1
      ensures SanitizedEvents(es + [e])[k] == (SanitizedEvents(es) + [SanitizedEvent(e)])[k]
    {
      if k < |es| {
        assert (es + [e])[k] == es[k];
      }
    }
  }

  lemma SanitizedEventsPrefix(es: seq<Event>, i: int)
    requires 0 <= i < |es|
    ensures SanitizedEvents(es[..i + 1]) == SanitizedEvents(es[..i]) + [SanitizedEvent(es[i])]
  {
    assert es[..i + 1] == es[..i] + [es[i]];
    SanitizedEventsAppend(es[..i], es[i]);
  }

  /** Renaming an already renamed list changes nothing. */
  lemma SanitizedParametersIdempotent(ps: seq<Parameter>)
    requires NoHandleAfterRename(ps)
    ensures SanitizedParameters(SanitizedParameters(ps)) == SanitizedParameters(ps)
  {
    var once := SanitizedParameters(ps);
    forall i | 0 <= i < |ps|
      ensures SanitizedParameters(once)[i] == once[i]
    {
      SanitizeIdempotent(ps[i].name);
    }
  }

  lemma SanitizedEventsIdempotent(es: seq<Event>)
    requires forall i :: 0 <= i < |es| ==> NoHandleAfterRename(es[i].parameters)
    ensures SanitizedEvents(SanitizedEvents(es)) == SanitizedEvents(es)
  {
    forall i | 0 <= i < |es|
      ensures SanitizedEvents(SanitizedEvents(es))[i] == SanitizedEvents(es)[i]
    {
      SanitizedParametersIdempotent(es[i].parameters);
    }
  }

  /** `ForEach(parameter => parameter.Name = Sanitize(parameter.Name))`,
      each renamed parameter written back into the list. */
  method RenameParameters(ps: seq<Parameter>) returns (r: seq<Parameter>)
    ensures r == SanitizedParameters(ps)
  {
    r := ps;
    var i := 0;
    while i < |r|
      invariant 0 <= i <= |r| && |r| == |ps|
      invariant forall k :: 0 <= k < i ==> r[k] == ps[k].(name := SanitizeEventParameterName(ps[k].name))
      invariant forall k :: i <= k < |r| ==> r[k] == ps[k]
    {
      r := r[i := r[i].(name := SanitizeEventParameterName(r[i].name))];
      i := i + 1;
    }
  }

  /** The overload line for an event whose parameters are already renamed. */
  function AddLine(e: Event, chain: seq<Caster>): string {
    "Add(name: '" + e.name + "', handler: " + RenderMethodParameters(e.parameters, chain) + " => any): void;"
  }

  /** What `AppendEventDefinition` emits for one event, before indentation:
      the doc block, the overload over the renamed parameters, a blank line. */
  function EventLines(e: Event, chain: seq<Caster>): seq<string> {
    DocBlock(e.description) + [AddLine(SanitizedEvent(e), chain), ""]
  }

  /** Each event ends with its overload and a blank line; the lines before
      them are a doc block, present iff the description is not blank. */
  lemma EventShape(e: Event, chain: seq<Caster>)
    ensures var r := EventLines(e, chain);
      |r| >= 2 && r[|r| - 2] == AddLine(SanitizedEvent(e), chain) && r[|r| - 1] == "" &&
      r[..|r| - 2] == DocBlock(e.description)
    ensures Blank(e.description) <==> EventLines(e, chain) == [AddLine(SanitizedEvent(e), chain), ""]
  {
    var r := EventLines(e, chain);
    DocBlockShape(e.description);
    assert r[..|r| - 2] == DocBlock(e.description);
  }

  /** The events' lines in list order. */
  function EventsLines(es: seq<Event>, chain: seq<Caster>): seq<string>
    decreases |es|
  {
    if es == [] then [] else EventLines(es[0], chain) + EventsLines(es[1..], chain)
  }

  /** Order: the lines of a concatenation are the lines of each part. */
  lemma {:induction false} EventsLinesAppend(es: seq<Event>, fs: seq<Event>, chain: seq<Caster>)
    ensures EventsLines(es + fs, chain) == EventsLines(es, chain) + EventsLines(fs, chain)
    decreases |es|
  {
    if es == [] {
      assert es + fs == fs;
    } else {
      assert (es + fs)[0] == es[0];
      assert (es + fs)[1..] == es[1..] + fs;
      EventsLinesAppend(es[1..], fs, chain);
    }
  }

  /** Every event contributes at least its overload and a blank line, and
      the overload of each event appears among the lines. */
  lemma {:induction false} EventsLinesCover(es: seq<Event>, chain: seq<Caster>)
    ensures |EventsLines(es, chain)| >= 2 * |es|
    ensures forall i :: 0 <= i < |es| ==> AddLine(SanitizedEvent(es[i]), chain) in EventsLines(es, chain)
    decreases |es|
  {
    if es != [] {
      EventShape(es[0], chain);
      EventsLinesCover(es[1..], chain);
      var head := EventLines(es[0], chain);
      var rest := EventsLines(es[1..], chain);
      assert head[|head| - 2] in head;
      forall i | 0 <= i < |es|
        ensures AddLine(SanitizedEvent(es[i]), chain) in head + rest
      {
        if i > 0 {
          assert es[i] == es[1..][i - 1];
        }
      }
    }
  }

  lemma EventsLinesSnoc(es: seq<Event>, e: Event, chain: seq<Caster>)
    ensures EventsLines(es + [e], chain) == EventsLines(es, chain) + EventLines(e, chain)
  {
    EventsLinesAppend(es, [e], chain);
    EventsLinesSingle(e, chain);
  }

  lemma EventsLinesSingle(e: Event, chain: seq<Caster>)
    ensures EventsLines([e], chain) == EventLines(e, chain)
  {
    assert [e][1..] == [];
    assert EventsLines([e], chain) == EventLines(e, chain) + EventsLines([], chain);
  }

  lemma EventsLinesPrefix(es: seq<Event>, i: int, chain: seq<Caster>)
    requires 0 <= i < |es|
    ensures EventsLines(es[..i + 1], chain) == EventsLines(es[..i], chain) + EventLines(es[i], chain)
  {
    assert es[..i + 1] == es[..i] + [es[i]];
    EventsLinesSnoc(es[..i], es[i], chain);
  }

  /** Rendering the renamed events gives the same lines as rendering the
      originals, so a second pass over an `EventSystem` class, which sees
      the names written back by the first, emits the same overloads. */
  lemma {:induction false} RenamingIsStable(es: seq<Event>, chain: seq<Caster>)
    requires forall i :: 0 <= i < |es| ==> NoHandleAfterRename(es[i].parameters)
    ensures EventsLines(SanitizedEvents(es), chain) == EventsLines(es, chain)
    decreases |es|
  {
    if es != [] {
      SanitizedParametersIdempotent(es[0].parameters);
      assert SanitizedEvents(es)[1..] == SanitizedEvents(es[1..]);
      RenamingIsStable(es[1..], chain);
    }
  }

  /** The special handle parameter is declared as `vehicle` in the handler. */
  lemma VehicleParameter(e: Event, p: Parameter, chain: seq<Caster>)
    requires e.parameters == [p] && p.name == VehicleHandleName && !p.optional
    ensures AddLine(SanitizedEvent(e), chain) ==
      "Add(name: '" + e.name + "', handler: (vehicle: " + Projected(chain, p.rawType) + ") => any): void;"
  {
    var q := p.(name := "vehicle");
    assert SanitizedEvent(e).parameters == [q] by {
      VehicleHandle();
      SanitizedSingle(e, p);
    }
    assert !IsVariadic(q) by { assert q.name[0] == 'v'; }
    AddLineSingle(SanitizedEvent(e), q, chain);
    HandlerMerged(e.name, Projected(chain, p.rawType));
  }

  lemma HandlerMerged(n: string, t: string)
    ensures "Add(name: '" + n + "', handler: (" + "vehicle" + ": " + t + ") => any): void;" ==
      "Add(name: '" + n + "', handler: (vehicle: " + t + ") => any): void;"
  {
    assert "', handler: (" + "vehicle" + ": " == "', handler: (vehicle: ";
  }

  lemma SanitizedSingle(e: Event, p: Parameter)
    requires e.parameters == [p]
    ensures SanitizedEvent(e).parameters == [p.(name := SanitizeEventParameterName(p.name))]
  {
  }

  /** A single plain parameter renders as `(name: T)` inside the line. */
  lemma AddLineSingle(e: Event, q: Parameter, chain: seq<Caster>)
    requires e.parameters == [q] && !IsVariadic(q) && !q.optional
    ensures AddLine(e, chain) ==
      "Add(name: '" + e.name + "', handler: (" + q.name + ": " + Projected(chain, q.rawType) + ") => any): void;"
  {
    var t := Projected(chain, q.rawType);
    var r := RenderMethodParameter(q, chain);
    assert r == q.name + (": " + t) by {
      assert r == r[..|q.name|] + r[|q.name|..];
    }
    Single(q, chain);
    var params := RenderMethodParameters([q], chain);
    assert params == "(" + (q.name + (": " + t)) + ")";
    AddLineMerged(e.name, q.name, t);
  }

  lemma AddLineMerged(n: string, x: string, t: string)
    ensures "Add(name: '" + n + "', handler: " + ("(" + (x + (": " + t)) + ")") + " => any): void;" ==
      "Add(name: '" + n + "', handler: (" + x + ": " + t + ") => any): void;"
  {
    assert "', handler: " + "(" == "', handler: (";
    assert ")" + " => any): void;" == ") => any): void;";
  }


  /** `AppendEventDefinition`: the doc block, then a loop that writes the
      sanitised name back into each parameter, then the overload and a blank
      line. The renamed event is returned to the caller. */
  method AppendEventDefinition(e: Event, writer: DefinitionWriterState, weapn: Caster) returns (renamed: Event)
    modifies writer
    ensures renamed == SanitizedEvent(e)
    ensures writer.lines == old(writer.lines) + Indented(old(writer.level), EventLines(e, TypeCasters(weapn)))
    ensures writer.level == old(writer.level)
  {
    ghost var l0 := writer.lines;
    var level := writer.level;
    WriteDocBlock(writer, e.description);
    ghost var l1 := writer.lines;
    assert l1 == l0 + Indented(level, DocBlock(e.description));
    var ps := RenameParameters(e.parameters);
    renamed := e.(parameters := ps);
    assert renamed == SanitizedEvent(e);
    var line := AddLine(renamed, TypeCasters(weapn));
    writer.WriteLine(line);
    writer.WriteBlankLine();
    LineThenBlank(level, line);
    WrittenInTurn(l0, l1, writer.lines, level, DocBlock(e.description), [line, ""]);
  }

  /** What the appender writes for a class, before indentation. */
  function AppendedLines(api: ApiDefinition, c: Class, chain: seq<Caster>): seq<string> {
    if c.className != EventSystemClassName then [] else EventsLines(api.events, chain)
  }

  /** The definition after the appender has run for a class. */
  function AfterAppend(api: ApiDefinition, c: Class): (r: ApiDefinition)
    ensures r.classes == api.classes
    ensures c.className != EventSystemClassName ==> r == api
    ensures c.className == EventSystemClassName ==> r.events == SanitizedEvents(api.events)
  {
    if c.className != EventSystemClassName then api else api.(events := SanitizedEvents(api.events))
  }

  /** `AppendDefinition`: nothing unless the class is `EventSystem`; then
      each event in list order. */
  method AppendDefinition(api: ApiDefinition, c: Class, writer: DefinitionWriterState, weapn: Caster)
    returns (updated: ApiDefinition)
    modifies writer
    ensures updated == AfterAppend(api, c)
    ensures writer.lines == old(writer.lines) + Indented(old(writer.level), AppendedLines(api, c, TypeCasters(weapn)))
    ensures writer.level == old(writer.level)
  {
    if c.className != EventSystemClassName {
      return api;
    }
    var events := api.events;
    var renamed: seq<Event> := [];
    var level := writer.level;
    ghost var chain := TypeCasters(weapn);
    var i := 0;
    while i < |events|
      invariant 0 <= i <= |events|
      invariant renamed == SanitizedEvents(events[..i])
      invariant writer.level == level
      invariant writer.lines == old(writer.lines) + Indented(level, EventsLines(events[..i], chain))
    {
      ghost var before := writer.lines;
      ghost var done := EventsLines(events[..i], chain);
      ghost var next := EventLines(events[i], chain);
      var r := AppendEventDefinition(events[i], writer, weapn);
      assert writer.lines == before + Indented(level, next);
      EventsLinesPrefix(events, i, chain);
      WrittenInTurn(old(writer.lines), before, writer.lines, level, done, next);
      SanitizedEventsPrefix(events, i);
      renamed := renamed + [r];
      i := i + 1;
    }
    assert events[..i] == events;
    updated := api.(events := renamed);
  }
}
