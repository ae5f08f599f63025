/**
 * The calculator conversation (`handle_calculation_flow`): a state machine
 * bound to one author and one channel. It shows a numbered category menu,
 * then reads one answer per step. The bones branch asks for a spawner count
 * and whether to show the hourly figure; the farm branch asks for a farm id,
 * a module count and a sell multiplier and shows the income. Every step may
 * instead end with "Invalid input or timeout."; an unknown farm id ends with
 * "Invalid farm ID.".
 *
 * `Transition` is the specification of one step and `Run` of a sequence of
 * steps; `CalculatorSession` is the object whose `Step` method carries the
 * conversation forward in place.
 */
module Calculator {
  import opened Wrappers
  import Text
  import Dict
  import opened FarmCatalog

  type UserId = int
  type ChannelId = int

  /** The name of the synthetic category appended after the catalog's own. */
  const Bones: CategoryName := "bones"

  /** What can happen while a step waits: a message arrives, or the 30-second wait expires. */
  datatype Event =
    | Message(author: UserId, channel: ChannelId, text: string)
    | Timeout

  /** How a category is labelled in the opening menu. */
  datatype MenuLabel =
    | FarmsLabel(category: CategoryName)   // "<category> farms"
    | BonesLabel                           // "Bones per Min/hour"

  /** One line `<number>: <label>` of the opening menu. */
  datatype MenuEntry = MenuEntry(number: int, caption: MenuLabel)

  /** The income figure of the final farm reply. */
  datatype IncomeText =
    | Millions(millions: real)    // "$<millions, 2 decimals>M/hour"
    | Thousands(thousands: int)   // "$<thousands, grouped>K/hour"

  /** The messages the conversation sends to its channel. */
  datatype Reply =
    | CategoryMenu(entries: seq<MenuEntry>)
    | SpawnerPrompt                                      // "How many Skeleton spawners do you have?"
    | BonesPerMinute(bones: int)                         // "... <bones> bones/minute. Do you want to calculate per hour?"
    | BonesPerHour(bones: int)                           // "... <bones> bones/hour."
    | FarmMenu(category: CategoryName, lines: seq<FarmLine>)
    | InvalidFarmId                                      // "Invalid farm ID."
    | ModulesPrompt                                      // "How many modules do you have?"
    | MultiplierPrompt                                   // "What is your sell multiplier? (1.0 to 3.0)"
    | FarmIncome(income: IncomeText)                     // "Your farm will make <income>."
    | InvalidInputOrTimeout                              // "Invalid input or timeout."
  {
    /** The replies that end a conversation: a result or an error. */
    predicate Closing() {
      BonesPerHour? || FarmIncome? || InvalidFarmId? || InvalidInputOrTimeout?
    }
  }

  /** How a finished conversation ended. */
  datatype Ending =
    | BonesPerMinuteOnly    // the hourly question was declined: no further message
    | BonesPerHourShown
    | IncomeShown
    | FarmIdRejected
    | Failed                // unparsable or out-of-range answer, or a wait that expired
    | KeyErrorRaised        // the selected category or farm has vanished from the catalog: Python raises, nothing is sent
  {
    /** The endings that send a closing reply. */
    predicate Announced() {
      BonesPerHourShown? || IncomeShown? || FarmIdRejected? || Failed?
    }

    /** `r` is the closing reply that announces this ending. */
    predicate AnnouncedBy(r: Reply) {
      || (BonesPerHourShown? && r.BonesPerHour?)
      || (IncomeShown? && r.FarmIncome?)
      || (FarmIdRejected? && r == InvalidFarmId)
      || (Failed? && r == InvalidInputOrTimeout)
    }
  }

  /** Where the conversation is; the awaiting phases carry the answers collected so far. */
  datatype Phase =
    | AwaitCategory
    | AwaitSpawners
    | AwaitHourly(bonesPerMinute: int)
    | AwaitFarmId(category: CategoryName)
    | AwaitModules(category: CategoryName, fid: FarmId)
    | AwaitMultiplier(category: CategoryName, fid: FarmId, modules: real)
    | Done(ending: Ending)

  /** Whom a conversation listens to, and the numbered categories its menu offered. */
  datatype Flow = Flow(author: UserId, channel: ChannelId, categories: seq<CategoryName>)

  /** The phase after a step and what the step sent. */
  datatype Outcome = Outcome(phase: Phase, replies: seq<Reply>)

  /** The categories the menu numbers: the catalog's in its order, then "bones". */
  function Categories(c: Catalog): seq<CategoryName> {
    Dict.Keys(c) + [Bones]
  }

  function Label(category: CategoryName): MenuLabel {
    if category != Bones then FarmsLabel(category) else BonesLabel
  }

  /** The opening menu: the categories numbered from 1 in order. */
  function Menu(categories: seq<CategoryName>): seq<MenuEntry> {
    seq(|categories|, i requires 0 <= i < |categories| => MenuEntry(i + 1, Label(categories[i])))
  }

  /** The menu of a fresh conversation has one entry per catalog category, numbered 1..N in catalog order, and a last entry for the bones calculator. */
  lemma MenuShape(c: Catalog)
    ensures |Menu(Categories(c))| == |c| + 1
    ensures forall i :: 0 <= i < |c| + 1 ==> Menu(Categories(c))[i].number == i + 1
    ensures forall i :: 0 <= i < |c| ==> Menu(Categories(c))[i].caption == Label(Dict.Keys(c)[i])
    ensures Menu(Categories(c))[|c|].caption == BonesLabel
  {
  }

  /** The loop that numbers the categories of the opening menu. */
  method BuildCategoryMenu(categories: seq<CategoryName>) returns (entries: seq<MenuEntry>)
    ensures entries == Menu(categories)
  {
    entries := [];
    var i := 0;
    while i < |categories|
      invariant 0 <= i <= |categories|
      invariant entries == Menu(categories[..i])
    {
      assert categories[..i + 1][..i] == categories[..i];
      var caption := if categories[i] != Bones then FarmsLabel(categories[i]) else BonesLabel;
      entries := entries + [MenuEntry(i + 1, caption)];
      i := i + 1;
    }
    assert categories[..i] == categories;
  }

  /** The `check` predicate: a message counts as an answer only if it comes from the conversation's author in its channel. */
  predicate Accepts(f: Flow, ev: Event) {
    ev.Message? && ev.author == f.author && ev.channel == f.channel
  }

  /** Python's `int(x)` on a float: truncation toward zero. */
  function Truncate(x: real): int {
    if x >= 0.0 then x.Floor else -((-x).Floor)
  }

  /** Truncation drops the fraction: the result is the integer next to x on the side of zero. */
  lemma TruncateTowardZero(x: real)
    ensures x >= 0.0 ==> 0 <= Truncate(x) && Truncate(x) as real <= x < Truncate(x) as real + 1.0
    ensures x < 0.0 ==> Truncate(x) <= 0 && Truncate(x) as real - 1.0 < x <= Truncate(x) as real
  {
  }

  /** The income figure for a total in millions per hour. */
  function FormatIncome(total: real): IncomeText {
    if total >= 1.0 then Millions(total) else Thousands(Truncate(total * 1000.0))
  }

  /**
   * Totals of at least 1 are shown in millions, as they are; smaller ones in
   * whole thousands, truncated toward zero, so a non-negative total below 1
   * shows between 0 and 999 thousand.
   */
  lemma FormatIncomeRange(total: real)
    ensures var r := FormatIncome(total);
      && (r.Millions? <==> total >= 1.0)
      && (r.Millions? ==> r.millions == total)
      && (r.Thousands? && total >= 0.0 ==>
            0 <= r.thousands < 1000 && r.thousands as real <= total * 1000.0 < r.thousands as real + 1.0)
      && (r.Thousands? && total < 0.0 ==>
            r.thousands <= 0 && r.thousands as real - 1.0 < total * 1000.0 <= r.thousands as real)
  {
    TruncateTowardZero(total * 1000.0);
  }

  /** The hourly income in millions: modules x the farm's rate x the sell multiplier. */
  function Total(modules: real, income: real, multiplier: real): real {
    modules * income * multiplier
  }

  /** `"yes"` or `"y"` after lower-casing. */
  predicate Affirmative(answer: string) {
    Text.Lower(answer) == "yes" || Text.Lower(answer) == "y"
  }

  /** The hourly question accepts "yes" and "y" in any mix of case, and nothing else. */
  lemma AffirmativeWords(answer: string)
    ensures Affirmative(answer) <==>
      Text.SpellsIgnoringCase(answer, "yes") || Text.SpellsIgnoringCase(answer, "y")
  {
    Text.LowerEqualsWord(answer, "yes");
    Text.LowerEqualsWord(answer, "y");
  }

  const Rejected: Outcome := Outcome(Done(Failed), [InvalidInputOrTimeout])

  /** The category answer: an integer k with 1 <= k <= N picks the k-th category; a category named "bones" starts the bones calculator. */
  function ChooseCategory(f: Flow, answer: string, c: Catalog): Outcome {
    match Text.ParseInt(answer)
    case None => Rejected
    case Some(n) =>
      if !(0 <= n - 1 < |f.categories|) then Rejected
      else
        var selected := f.categories[n - 1];
        if selected == Bones then Outcome(AwaitSpawners, [SpawnerPrompt])
        else
          match Dict.Get(c, selected)
          case None => Outcome(Done(KeyErrorRaised), [])
          case Some(farms) => Outcome(AwaitFarmId(selected), [FarmMenu(selected, FarmLines(farms))])
  }

  /** The spawner count: any integer; each spawner makes 2 bones a minute. */
  function CountSpawners(answer: string): Outcome {
    match Text.ParseInt(answer)
    case None => Rejected
    case Some(spawners) => Outcome(AwaitHourly(spawners * 2), [BonesPerMinute(spawners * 2)])
  }

  /** The hourly question: "yes" or "y" shows 60 times the per-minute figure; any other answer ends silently. */
  function ConfirmHourly(perMinute: int, answer: string): Outcome {
    if Affirmative(answer) then Outcome(Done(BonesPerHourShown), [BonesPerHour(perMinute * 60)])
    else Outcome(Done(BonesPerMinuteOnly), [])
  }

  /** The farm id: it must be, exactly, an id of the chosen category. */
  function ChooseFarm(category: CategoryName, answer: string, c: Catalog): Outcome {
    match Dict.Get(c, category)
    case None => Outcome(Done(KeyErrorRaised), [])
    case Some(farms) =>
      if Dict.Contains(farms, answer) then Outcome(AwaitModules(category, answer), [ModulesPrompt])
      else Outcome(Done(FarmIdRejected), [InvalidFarmId])
  }

  /** The module count: any number. */
  function CountModules(category: CategoryName, fid: FarmId, answer: string): Outcome {
    match Text.ParseReal(answer)
    case None => Rejected
    case Some(modules) => Outcome(AwaitMultiplier(category, fid, modules), [MultiplierPrompt])
  }

  /** The multiplier: any number; the result is modules x income x multiplier, with the farm's income as it is now. */
  function ApplyMultiplier(category: CategoryName, fid: FarmId, modules: real, answer: string, c: Catalog): Outcome {
    var multiplier := Text.ParseReal(answer);
    var farm := FarmOf(c, category, fid);
    if multiplier.None? then Rejected
    else if farm.None? then Outcome(Done(KeyErrorRaised), [])
    else Outcome(Done(IncomeShown), [FarmIncome(FormatIncome(Total(modules, farm.value.income, multiplier.value)))])
  }

  /** What the conversation does with an accepted answer, already stripped, in an awaiting phase. */
  function Answer(f: Flow, p: Phase, answer: string, c: Catalog): Outcome
    requires !p.Done?
  {
    match p
    case AwaitCategory => ChooseCategory(f, answer, c)
    case AwaitSpawners => CountSpawners(answer)
    case AwaitHourly(perMinute) => ConfirmHourly(perMinute, answer)
    case AwaitFarmId(category) => ChooseFarm(category, answer, c)
    case AwaitModules(category, fid) => CountModules(category, fid, answer)
    case AwaitMultiplier(category, fid, modules) => ApplyMultiplier(category, fid, modules, answer, c)
  }

  /**
   * One step: a finished conversation ignores everything; an expired wait
   * ends it with the generic error; a message it does not accept changes
   * nothing; an accepted message is answered after stripping its text.
   * `c` is the catalog as it stands when the event arrives.
   */
  function Transition(f: Flow, p: Phase, ev: Event, c: Catalog): Outcome {
    if p.Done? then Outcome(p, [])
    else if ev.Timeout? then Rejected
    else if !Accepts(f, ev) then Outcome(p, [])
    else Answer(f, p, Text.Strip(ev.text), c)
  }

  /** The steps of a conversation over a catalog that does not change meanwhile. */
  function Run(f: Flow, p: Phase, events: seq<Event>, c: Catalog): Outcome
    decreases |events|
  {
    if events == [] then Outcome(p, [])
    else
      var first := Transition(f, p, events[0], c);
      var rest := Run(f, first.phase, events[1..], c);
      Outcome(rest.phase, first.replies + rest.replies)
  }

  // The code of `CalculatorSession.Step` for an accepted answer, one method per
  // phase; each computes the case of `Transition` that its phase selects.

  /** The code that handles the category answer. */
  method ChooseCategoryStep(f: Flow, answer: string, c: Catalog) returns (o: Outcome)
    ensures o == ChooseCategory(f, answer, c)
  {
    var n := Text.ParseInt(answer);
    if n.None? || !(0 <= n.value - 1 < |f.categories|) {
      return Rejected;
    }
    var selected := f.categories[n.value - 1];
    if selected == Bones {
      return Outcome(AwaitSpawners, [SpawnerPrompt]);
    }
    var farms := Dict.Get(c, selected);
    if farms.None? {
      return Outcome(Done(KeyErrorRaised), []);
    }
    var lines := BuildFarmMenu(farms.value);
    o := Outcome(AwaitFarmId(selected), [FarmMenu(selected, lines)]);
  }

  /** The code that handles the spawner count. */
  method CountSpawnersStep(answer: string) returns (o: Outcome)
    ensures o == CountSpawners(answer)
  {
    var spawners := Text.ParseInt(answer);
    if spawners.None? {
      return Rejected;
    }
    var bonesPerMinute := spawners.value * 2;
    o := Outcome(AwaitHourly(bonesPerMinute), [BonesPerMinute(bonesPerMinute)]);
  }

  /** The code that handles the hourly question. */
  method ConfirmHourlyStep(perMinute: int, answer: string) returns (o: Outcome)
    ensures o == ConfirmHourly(perMinute, answer)
  {
    var lowered := Text.Lower(answer);
    if lowered == "yes" || lowered == "y" {
      o := Outcome(Done(BonesPerHourShown), [BonesPerHour(perMinute * 60)]);
    } else {
      o := Outcome(Done(BonesPerMinuteOnly), []);
    }
  }

  /** The code that handles the farm id. */
  method ChooseFarmStep(category: CategoryName, answer: string, c: Catalog) returns (o: Outcome)
    ensures o == ChooseFarm(category, answer, c)
  {
    var farms := Dict.Get(c, category);
    if farms.None? {
      o := Outcome(Done(KeyErrorRaised), []);
    } else if !Dict.Contains(farms.value, answer) {
      o := Outcome(Done(FarmIdRejected), [InvalidFarmId]);
    } else {
      o := Outcome(AwaitModules(category, answer), [ModulesPrompt]);
    }
  }

  /** The code that handles the module count. */
  method CountModulesStep(category: CategoryName, fid: FarmId, answer: string) returns (o: Outcome)
    ensures o == CountModules(category, fid, answer)
  {
    var modules := Text.ParseReal(answer);
    if modules.None? {
      o := Rejected;
    } else {
      o := Outcome(AwaitMultiplier(category, fid, modules.value), [MultiplierPrompt]);
    }
  }

  /** The code that handles the multiplier and computes the income. */
  method ApplyMultiplierStep(category: CategoryName, fid: FarmId, modules: real, answer: string, c: Catalog)
    returns (o: Outcome)
    ensures o == ApplyMultiplier(category, fid, modules, answer, c)
  {
    var multiplier := Text.ParseReal(answer);
    if multiplier.None? {
      return Rejected;
    }
    var farm := FarmOf(c, category, fid);
    if farm.None? {
      return Outcome(Done(KeyErrorRaised), []);
    }
    var total := Total(modules, farm.value.income, multiplier.value);
    o := Outcome(Done(IncomeShown), [FarmIncome(FormatIncome(total))]);
  }

  /** The code that handles an accepted answer, by phase. */
  method AnswerStep(f: Flow, p: Phase, answer: string, c: Catalog) returns (o: Outcome)
    requires !p.Done?
    ensures o == Answer(f, p, answer, c)
  {
    match p {
      case AwaitCategory => o := ChooseCategoryStep(f, answer, c);
      case AwaitSpawners => o := CountSpawnersStep(answer);
      case AwaitHourly(perMinute) => o := ConfirmHourlyStep(perMinute, answer);
      case AwaitFarmId(category) => o := ChooseFarmStep(category, answer, c);
      case AwaitModules(category, fid) => o := CountModulesStep(category, fid, answer);
      case AwaitMultiplier(category, fid, modules) => o := ApplyMultiplierStep(category, fid, modules, answer, c);
    }
  }

  /** One running calculator conversation, with everything it has sent so far. */
  class CalculatorSession {
    const author: UserId
    const channel: ChannelId
    const categories: seq<CategoryName>
    var phase: Phase
    var transcript: seq<Reply>

    function Config(): Flow {
      Flow(author, channel, categories)
    }

    /** Starting a conversation snapshots the category list and sends the numbered menu. */
    constructor(author: UserId, channel: ChannelId, c: Catalog)
      ensures this.author == author && this.channel == channel
      ensures categories == Categories(c)
      ensures phase == AwaitCategory
      ensures transcript == [CategoryMenu(Menu(Categories(c)))]
    {
      var names := Dict.Keys(c) + [Bones];
      var entries := BuildCategoryMenu(names);
      this.author := author;
      this.channel := channel;
      categories := names;
      phase := AwaitCategory;
      transcript := [CategoryMenu(entries)];
    }

    /** Delivers one event, with the catalog as it stands at that moment. */
    method Step(ev: Event, c: Catalog) returns (replies: seq<Reply>)
      modifies this
      ensures Outcome(phase, replies) == Transition(Config(), old(phase), ev, c)
      ensures transcript == old(transcript) + replies
    {
      var o: Outcome;
      if phase.Done? {
        o := Outcome(phase, []);
      } else if ev.Timeout? {
        o := Rejected;
      } else if !(ev.author == author && ev.channel == channel) {
        o := Outcome(phase, []);
      } else {
        var answer := Text.Strip(ev.text);
        o := AnswerStep(Config(), phase, answer, c);
      }
      phase := o.phase;
      replies := o.replies;
      transcript := transcript + replies;
    }
  }

  // ---------------------------------------------------------------------
  // Properties of one step

  /**
   * Answering with any text that `int()` reads as the number shown for menu
   * entry i (say " 3", "+3" or "03" for entry 3) picks that entry: the bones
   * calculator for the bones label, the category's farm menu otherwise.
   */
  lemma ChoosingMenuEntry(f: Flow, c: Catalog, i: int, text: string)
    requires 0 <= i < |f.categories|
    requires Text.ParseInt(Text.Strip(text)) == Some(Menu(f.categories)[i].number)
    ensures var o := Transition(f, AwaitCategory, Message(f.author, f.channel, text), c);
      match Menu(f.categories)[i].caption
      case BonesLabel => o == Outcome(AwaitSpawners, [SpawnerPrompt])
      case FarmsLabel(category) =>
        Dict.Contains(c, category) ==> o == Outcome(AwaitFarmId(category), [FarmMenu(category, FarmLines(Dict.Get(c, category).value))])
  {
    MenuNumberAnswered(f, c, text, i + 1);
  }

  /** The category answer is refused, with the generic error and nothing else, exactly when it is not an integer between 1 and N. */
  lemma CategoryAnswerRejected(f: Flow, c: Catalog, text: string)
    ensures var o := Transition(f, AwaitCategory, Message(f.author, f.channel, text), c);
      var n := Text.ParseInt(Text.Strip(text));
      (o == Rejected) <==> !(n.Some? && 1 <= n.value <= |f.categories|)
  {
  }

  /** A phase that waits yields to an expired wait with the generic error. */
  lemma TimeoutRejects(f: Flow, p: Phase, c: Catalog)
    requires !p.Done?
    ensures Transition(f, p, Timeout, c) == Rejected
  {
  }

  /** An unknown farm id ends the conversation with "Invalid farm ID." and, whatever follows, no module prompt. */
  lemma UnknownFarmIdEnds(f: Flow, category: CategoryName, c: Catalog, text: string, later: seq<Event>)
    requires Dict.Contains(c, category)
    requires !Dict.Contains(Dict.Get(c, category).value, Text.Strip(text))
    ensures Run(f, AwaitFarmId(category), [Message(f.author, f.channel, text)] + later, c) ==
      Outcome(Done(FarmIdRejected), [InvalidFarmId])
  {
    var events := [Message(f.author, f.channel, text)] + later;
    assert events[1..] == later;
    RunAfterEnd(f, Done(FarmIdRejected), later, c);
  }

  /** Each accepted answer or expired wait brings the conversation closer to its end. */
  function Rank(p: Phase): nat {
    match p
    case AwaitCategory => 4
    case AwaitSpawners => 2
    case AwaitHourly(_) => 1
    case AwaitFarmId(_) => 3
    case AwaitModules(_, _) => 2
    case AwaitMultiplier(_, _, _) => 1
    case Done(_) => 0
  }

  /** An event that the conversation consumes: an accepted message or an expired wait. */
  predicate Consumed(f: Flow, ev: Event) {
    ev.Timeout? || Accepts(f, ev)
  }

  lemma StepRank(f: Flow, p: Phase, ev: Event, c: Catalog)
    requires !p.Done? && Consumed(f, ev)
    ensures Rank(Transition(f, p, ev, c).phase) < Rank(p)
  {
    if !ev.Timeout? {
      var answer := Text.Strip(ev.text);
      assert Transition(f, p, ev, c) == Answer(f, p, answer, c);
    }
  }

  /** Stepping to a finished phase sends a closing reply exactly when the ending is announced, and then as the last reply. */
  lemma StepClosing(f: Flow, p: Phase, ev: Event, c: Catalog)
    requires !p.Done?
    ensures var o := Transition(f, p, ev, c);
      && ClosingCount(o.replies) == (if o.phase.Done? && o.phase.ending.Announced() then 1 else 0)
      && (o.phase.Done? && o.phase.ending.Announced() ==> o.replies != [] && o.phase.ending.AnnouncedBy(o.replies[|o.replies| - 1]))
  {
    if !ev.Timeout? && Accepts(f, ev) {
      var answer := Text.Strip(ev.text);
      match p
      case AwaitCategory =>
        assert Transition(f, p, ev, c) == ChooseCategory(f, answer, c);
      case AwaitSpawners =>
        assert Transition(f, p, ev, c) == CountSpawners(answer);
      case AwaitHourly(perMinute) =>
        assert Transition(f, p, ev, c) == ConfirmHourly(perMinute, answer);
      case AwaitFarmId(category) =>
        assert Transition(f, p, ev, c) == ChooseFarm(category, answer, c);
      case AwaitModules(category, fid) =>
        assert Transition(f, p, ev, c) == CountModules(category, fid, answer);
      case AwaitMultiplier(category, fid, modules) =>
        assert Transition(f, p, ev, c) == ApplyMultiplier(category, fid, modules, answer, c);
    }
    ClosingCountOne(Transition(f, p, ev, c).replies);
  }

  // ---------------------------------------------------------------------
  // Properties of whole conversations

  function ClosingCount(replies: seq<Reply>): nat {
    if replies == [] then 0 else (if replies[0].Closing() then 1 else 0) + ClosingCount(replies[1..])
  }

  /** A transcript of at most one reply closes once exactly when that reply closes. */
  lemma ClosingCountOne(replies: seq<Reply>)
    requires |replies| <= 1
    ensures ClosingCount(replies) == if replies != [] && replies[0].Closing() then 1 else 0
  {
    if replies != [] {
      assert replies[1..] == [];
    }
  }

  lemma {:induction false} ClosingCountAppend(a: seq<Reply>, b: seq<Reply>)
    ensures ClosingCount(a + b) == ClosingCount(a) + ClosingCount(b)
  {
    if a != [] {
      assert (a + b)[0] == a[0] && (a + b)[1..] == a[1..] + b;
      ClosingCountAppend(a[1..], b);
    } else {
      assert a + b == b;
    }
  }

  /** A finished conversation stays silent: events after its end, late answers included, have no effect. */
  lemma {:induction false} RunAfterEnd(f: Flow, p: Phase, events: seq<Event>, c: Catalog)
    requires p.Done?
    ensures Run(f, p, events, c) == Outcome(p, [])
  {
    if events != [] {
      RunAfterEnd(f, p, events[1..], c);
    }
  }

  /** The events a conversation consumes, in order. */
  function ConsumedEvents(f: Flow, events: seq<Event>): seq<Event> {
    if events == [] then []
    else (if Consumed(f, events[0]) then [events[0]] else []) + ConsumedEvents(f, events[1..])
  }

  /** Messages from other users or other channels neither advance nor end the conversation: it behaves as if they had never been sent. */
  lemma {:induction false} RunIgnoresOthers(f: Flow, p: Phase, events: seq<Event>, c: Catalog)
    decreases |events|
    ensures Run(f, p, events, c) == Run(f, p, ConsumedEvents(f, events), c)
  {
    if events != [] {
      RunIgnoresOthers(f, Transition(f, p, events[0], c).phase, events[1..], c);
      RunIgnoresOthers(f, p, events[1..], c);
      if Consumed(f, events[0]) {
        var kept := ConsumedEvents(f, events);
        assert kept[0] == events[0] && kept[1..] == ConsumedEvents(f, events[1..]);
      } else {
        assert ConsumedEvents(f, events) == ConsumedEvents(f, events[1..]);
      }
    }
  }

  /** A conversation has ended once it has consumed as many events as its rank: at most four for a fresh one. */
  lemma {:induction false} RunFinishes(f: Flow, p: Phase, events: seq<Event>, c: Catalog)
    requires Rank(p) <= |ConsumedEvents(f, events)|
    decreases |events|
    ensures Run(f, p, events, c).phase.Done?
  {
    if p.Done? {
      RunAfterEnd(f, p, events, c);
    } else {
      assert events != [];
      var next := Transition(f, p, events[0], c).phase;
      if Consumed(f, events[0]) {
        StepRank(f, p, events[0], c);
        assert |ConsumedEvents(f, events)| == 1 + |ConsumedEvents(f, events[1..])|;
      } else {
        assert next == p;
      }
      RunFinishes(f, next, events[1..], c);
    }
  }

  /**
   * A conversation sends at most one closing reply (result or error), exactly
   * when it ends with an announced ending, and that reply is its last one and
   * matches the ending.
   */
  lemma {:induction false} RunClosesOnce(f: Flow, p: Phase, events: seq<Event>, c: Catalog)
    decreases |events|
    requires !p.Done?
    ensures var o := Run(f, p, events, c);
      && ClosingCount(o.replies) == (if o.phase.Done? && o.phase.ending.Announced() then 1 else 0)
      && (o.phase.Done? && o.phase.ending.Announced() ==> o.replies != [] && o.phase.ending.AnnouncedBy(o.replies[|o.replies| - 1]))
  {
    if events != [] {
      var first := Transition(f, p, events[0], c);
      var rest := Run(f, first.phase, events[1..], c);
      StepClosing(f, p, events[0], c);
      ClosingCountAppend(first.replies, rest.replies);
      if first.phase.Done? {
        RunAfterEnd(f, first.phase, events[1..], c);
        assert first.replies + rest.replies == first.replies;
      } else {
        RunClosesOnce(f, first.phase, events[1..], c);
        assert first.replies == [] || ClosingCount(first.replies) == 0;
        if rest.replies != [] {
          assert (first.replies + rest.replies)[|first.replies + rest.replies| - 1] == rest.replies[|rest.replies| - 1];
        }
      }
    }
  }

  /** A run over a first event and more: the first step, then the rest from where it leaves off. */
  lemma RunCons(f: Flow, p: Phase, ev: Event, rest: seq<Event>, c: Catalog)
    ensures Run(f, p, [ev] + rest, c) ==
      var first := Transition(f, p, ev, c);
      var later := Run(f, first.phase, rest, c);
      Outcome(later.phase, first.replies + later.replies)
  {
    assert ([ev] + rest)[1..] == rest;
  }

  lemma RunSingle(f: Flow, p: Phase, ev: Event, c: Catalog)
    ensures Run(f, p, [ev], c) == Transition(f, p, ev, c)
  {
    RunCons(f, p, ev, [], c);
    assert Transition(f, p, ev, c).replies + [] == Transition(f, p, ev, c).replies;
  }

  /** A spawner count that `int()` reads as n gives 2n bones a minute and the hourly question. */
  lemma SpawnersAnswered(f: Flow, text: string, spawners: int, c: Catalog)
    requires Text.ParseInt(Text.Strip(text)) == Some(spawners)
    ensures Transition(f, AwaitSpawners, Message(f.author, f.channel, text), c) ==
      Outcome(AwaitHourly(2 * spawners), [BonesPerMinute(2 * spawners)])
  {
    assert Transition(f, AwaitSpawners, Message(f.author, f.channel, text), c) == CountSpawners(Text.Strip(text));
  }

  /** A spawner count that is not an integer ends the conversation with the generic error. */
  lemma SpawnersRejected(f: Flow, text: string, c: Catalog)
    requires Text.ParseInt(Text.Strip(text)).None?
    ensures Transition(f, AwaitSpawners, Message(f.author, f.channel, text), c) == Rejected
  {
    assert Transition(f, AwaitSpawners, Message(f.author, f.channel, text), c) == CountSpawners(Text.Strip(text));
  }

  /** The hourly question shows 60 times the per-minute figure for "yes" or "y" in any case, and ends silently otherwise. */
  lemma HourlyAnswered(f: Flow, perMinute: int, text: string, c: Catalog)
    ensures var yes := Text.SpellsIgnoringCase(Text.Strip(text), "yes") || Text.SpellsIgnoringCase(Text.Strip(text), "y");
      Transition(f, AwaitHourly(perMinute), Message(f.author, f.channel, text), c) ==
      if yes then Outcome(Done(BonesPerHourShown), [BonesPerHour(perMinute * 60)])
      else Outcome(Done(BonesPerMinuteOnly), [])
  {
    AffirmativeWords(Text.Strip(text));
  }

  /** An answer whose stripped text is a farm id of the chosen category leads to the modules question for that farm. */
  lemma FarmIdAnswered(f: Flow, category: CategoryName, text: string, c: Catalog)
    requires FarmOf(c, category, Text.Strip(text)).Some?
    ensures Transition(f, AwaitFarmId(category), Message(f.author, f.channel, text), c) ==
      Outcome(AwaitModules(category, Text.Strip(text)), [ModulesPrompt])
  {
    assert Transition(f, AwaitFarmId(category), Message(f.author, f.channel, text), c) == ChooseFarm(category, Text.Strip(text), c);
  }

  /** A numeric module count leads to the multiplier question. */
  lemma ModulesAnswered(f: Flow, category: CategoryName, fid: FarmId, text: string, c: Catalog)
    requires Text.ParseReal(Text.Strip(text)).Some?
    ensures Transition(f, AwaitModules(category, fid), Message(f.author, f.channel, text), c) ==
      Outcome(AwaitMultiplier(category, fid, Text.ParseReal(Text.Strip(text)).value), [MultiplierPrompt])
  {
  }

  /** A module count that is not a number ends the conversation with the generic error. */
  lemma ModulesRejected(f: Flow, category: CategoryName, fid: FarmId, text: string, c: Catalog)
    requires Text.ParseReal(Text.Strip(text)).None?
    ensures Transition(f, AwaitModules(category, fid), Message(f.author, f.channel, text), c) == Rejected
  {
  }

  /** A multiplier that is not a number ends the conversation with the generic error, before the farm is looked up. */
  lemma MultiplierRejected(f: Flow, category: CategoryName, fid: FarmId, modules: real, text: string, c: Catalog)
    requires Text.ParseReal(Text.Strip(text)).None?
    ensures Transition(f, AwaitMultiplier(category, fid, modules), Message(f.author, f.channel, text), c) == Rejected
  {
    assert Transition(f, AwaitMultiplier(category, fid, modules), Message(f.author, f.channel, text), c) ==
      ApplyMultiplier(category, fid, modules, Text.Strip(text), c);
  }

  /** A numeric multiplier for a farm still in the catalog shows modules x income x multiplier. */
  lemma MultiplierAnswered(f: Flow, category: CategoryName, fid: FarmId, modules: real, text: string, c: Catalog)
    requires Text.ParseReal(Text.Strip(text)).Some? && FarmOf(c, category, fid).Some?
    ensures Transition(f, AwaitMultiplier(category, fid, modules), Message(f.author, f.channel, text), c) ==
      Outcome(Done(IncomeShown), [FarmIncome(FormatIncome(Total(modules, FarmOf(c, category, fid).value.income,
                                                                Text.ParseReal(Text.Strip(text)).value)))])
  {
    assert Transition(f, AwaitMultiplier(category, fid, modules), Message(f.author, f.channel, text), c) ==
      ApplyMultiplier(category, fid, modules, Text.Strip(text), c);
  }

  /** An answer that `int()` reads as k, for 1 <= k <= N, picks the k-th category. */
  lemma MenuNumberAnswered(f: Flow, c: Catalog, text: string, k: int)
    requires 1 <= k <= |f.categories|
    requires Text.ParseInt(Text.Strip(text)) == Some(k)
    ensures var o := Transition(f, AwaitCategory, Message(f.author, f.channel, text), c);
      var category := f.categories[k - 1];
      && (category == Bones ==> o == Outcome(AwaitSpawners, [SpawnerPrompt]))
      && (category != Bones && Dict.Contains(c, category) ==>
            o == Outcome(AwaitFarmId(category), [FarmMenu(category, FarmLines(Dict.Get(c, category).value))]))
  {
    assert Transition(f, AwaitCategory, Message(f.author, f.channel, text), c) == ChooseCategory(f, Text.Strip(text), c);
  }

  /** Short concatenations written out element by element. */
  lemma PrependToOne<T>(x: T, ys: seq<T>)
    requires |ys| == 1
    ensures [x] + ys == [x, ys[0]]
  {
  }

  lemma PrependToTwo<T>(x: T, ys: seq<T>)
    requires |ys| == 2
    ensures [x] + ys == [x, ys[0], ys[1]]
  {
  }

  lemma PrependToThree<T>(x: T, ys: seq<T>)
    requires |ys| == 3
    ensures [x] + ys == [x, ys[0], ys[1], ys[2]]
  {
  }

  /** The bones branch after the menu: a spawner count that `int()` reads as n, then the hourly answer. */
  lemma BonesAnswers(f: Flow, c: Catalog, spawnersText: string, spawners: int, hourly: string)
    requires Text.ParseInt(Text.Strip(spawnersText)) == Some(spawners)
    ensures var yes := Text.SpellsIgnoringCase(Text.Strip(hourly), "yes") || Text.SpellsIgnoringCase(Text.Strip(hourly), "y");
      Run(f, AwaitSpawners, [Message(f.author, f.channel, spawnersText), Message(f.author, f.channel, hourly)], c) ==
      if yes then Outcome(Done(BonesPerHourShown), [BonesPerMinute(2 * spawners), BonesPerHour(120 * spawners)])
      else Outcome(Done(BonesPerMinuteOnly), [BonesPerMinute(2 * spawners)])
  {
    var m1 := Message(f.author, f.channel, spawnersText);
    var m2 := Message(f.author, f.channel, hourly);
    PrependToOne(m1, [m2]);
    RunCons(f, AwaitSpawners, m1, [m2], c);
    SpawnersAnswered(f, spawnersText, spawners, c);
    RunSingle(f, AwaitHourly(2 * spawners), m2, c);
    HourlyAnswered(f, 2 * spawners, hourly, c);
    var last := Transition(f, AwaitHourly(2 * spawners), m2, c);
    var perMinute := BonesPerMinute(2 * spawners);
    assert Run(f, AwaitSpawners, [m1, m2], c) == Outcome(last.phase, [perMinute] + last.replies);
    if Text.SpellsIgnoringCase(Text.Strip(hourly), "yes") || Text.SpellsIgnoringCase(Text.Strip(hourly), "y") {
      assert (2 * spawners) * 60 == 120 * spawners;
      assert last == Outcome(Done(BonesPerHourShown), [BonesPerHour(120 * spawners)]);
      PrependToOne(perMinute, last.replies);
    } else {
      assert last == Outcome(Done(BonesPerMinuteOnly), []);
      assert [perMinute] + last.replies == [perMinute];
    }
  }

  /** Three answers on the bones branch: the menu number, a spawner count, and the hourly answer. */
  lemma BonesConversation(f: Flow, c: Catalog, choice: string, k: int, spawnersText: string, spawners: int, hourly: string)
    requires 1 <= k <= |f.categories| && f.categories[k - 1] == Bones
    requires Text.ParseInt(Text.Strip(choice)) == Some(k)
    requires Text.ParseInt(Text.Strip(spawnersText)) == Some(spawners)
    ensures var yes := Text.SpellsIgnoringCase(Text.Strip(hourly), "yes") || Text.SpellsIgnoringCase(Text.Strip(hourly), "y");
      Run(f, AwaitCategory, [Message(f.author, f.channel, choice),
                             Message(f.author, f.channel, spawnersText),
                             Message(f.author, f.channel, hourly)], c) ==
      if yes then Outcome(Done(BonesPerHourShown), [SpawnerPrompt, BonesPerMinute(2 * spawners), BonesPerHour(120 * spawners)])
      else Outcome(Done(BonesPerMinuteOnly), [SpawnerPrompt, BonesPerMinute(2 * spawners)])
  {
    var m0 := Message(f.author, f.channel, choice);
    var later := [Message(f.author, f.channel, spawnersText), Message(f.author, f.channel, hourly)];
    PrependToTwo(m0, later);
    RunCons(f, AwaitCategory, m0, later, c);
    MenuNumberAnswered(f, c, choice, k);
    BonesAnswers(f, c, spawnersText, spawners, hourly);
    var rest := Run(f, AwaitSpawners, later, c);
    if |rest.replies| == 2 {
      PrependToTwo(SpawnerPrompt, rest.replies);
    } else {
      PrependToOne(SpawnerPrompt, rest.replies);
    }
  }

  /** The last two answers of a farm branch: the modules, then the multiplier. */
  lemma IncomeAnswers(f: Flow, c: Catalog, category: CategoryName, fid: FarmId, modulesText: string, multiplierText: string)
    requires FarmOf(c, category, fid).Some?
    requires Text.ParseReal(Text.Strip(modulesText)).Some? && Text.ParseReal(Text.Strip(multiplierText)).Some?
    ensures var total := Total(Text.ParseReal(Text.Strip(modulesText)).value, FarmOf(c, category, fid).value.income,
                               Text.ParseReal(Text.Strip(multiplierText)).value);
      Run(f, AwaitModules(category, fid), [Message(f.author, f.channel, modulesText), Message(f.author, f.channel, multiplierText)], c) ==
      Outcome(Done(IncomeShown), [MultiplierPrompt, FarmIncome(FormatIncome(total))])
  {
    var modules := Text.ParseReal(Text.Strip(modulesText)).value;
    var m2 := Message(f.author, f.channel, modulesText);
    var m3 := Message(f.author, f.channel, multiplierText);
    PrependToOne(m2, [m3]);
    RunCons(f, AwaitModules(category, fid), m2, [m3], c);
    ModulesAnswered(f, category, fid, modulesText, c);
    RunSingle(f, AwaitMultiplier(category, fid, modules), m3, c);
    MultiplierAnswered(f, category, fid, modules, multiplierText, c);
    PrependToOne(MultiplierPrompt, Transition(f, AwaitMultiplier(category, fid, modules), m3, c).replies);
  }

  /** A farm branch after the menu: an answer that strips to a farm id, the modules and the multiplier. */
  lemma FarmAnswers(f: Flow, c: Catalog, category: CategoryName, fidText: string, modulesText: string, multiplierText: string)
    requires FarmOf(c, category, Text.Strip(fidText)).Some?
    requires Text.ParseReal(Text.Strip(modulesText)).Some? && Text.ParseReal(Text.Strip(multiplierText)).Some?
    ensures var total := Total(Text.ParseReal(Text.Strip(modulesText)).value, FarmOf(c, category, Text.Strip(fidText)).value.income,
                               Text.ParseReal(Text.Strip(multiplierText)).value);
      Run(f, AwaitFarmId(category), [Message(f.author, f.channel, fidText),
                                     Message(f.author, f.channel, modulesText),
                                     Message(f.author, f.channel, multiplierText)], c) ==
      Outcome(Done(IncomeShown), [ModulesPrompt, MultiplierPrompt, FarmIncome(FormatIncome(total))])
  {
    var m1 := Message(f.author, f.channel, fidText);
    var later := [Message(f.author, f.channel, modulesText), Message(f.author, f.channel, multiplierText)];
    PrependToTwo(m1, later);
    RunCons(f, AwaitFarmId(category), m1, later, c);
    FarmIdAnswered(f, category, fidText, c);
    IncomeAnswers(f, c, category, Text.Strip(fidText), modulesText, multiplierText);
    PrependToTwo(ModulesPrompt, Run(f, AwaitModules(category, Text.Strip(fidText)), later, c).replies);
  }

  /** Four answers on a farm branch: the menu number, a farm id, the modules and the multiplier; the result is modules x income x multiplier. */
  lemma FarmConversation(f: Flow, c: Catalog, choice: string, k: int, fidText: string, modulesText: string, multiplierText: string)
    requires 1 <= k <= |f.categories| && f.categories[k - 1] != Bones
    requires Text.ParseInt(Text.Strip(choice)) == Some(k)
    requires FarmOf(c, f.categories[k - 1], Text.Strip(fidText)).Some?
    requires Text.ParseReal(Text.Strip(modulesText)).Some? && Text.ParseReal(Text.Strip(multiplierText)).Some?
    ensures var category := f.categories[k - 1];
      var total := Total(Text.ParseReal(Text.Strip(modulesText)).value, FarmOf(c, category, Text.Strip(fidText)).value.income,
                         Text.ParseReal(Text.Strip(multiplierText)).value);
      Run(f, AwaitCategory, [Message(f.author, f.channel, choice),
                             Message(f.author, f.channel, fidText),
                             Message(f.author, f.channel, modulesText),
                             Message(f.author, f.channel, multiplierText)], c) ==
      Outcome(Done(IncomeShown), [FarmMenu(category, FarmLines(Dict.Get(c, category).value)),
                                  ModulesPrompt, MultiplierPrompt, FarmIncome(FormatIncome(total))])
  {
    var category := f.categories[k - 1];
    var m0 := Message(f.author, f.channel, choice);
    var later := [Message(f.author, f.channel, fidText), Message(f.author, f.channel, modulesText),
                  Message(f.author, f.channel, multiplierText)];
    var total := Total(Text.ParseReal(Text.Strip(modulesText)).value, FarmOf(c, category, Text.Strip(fidText)).value.income,
                       Text.ParseReal(Text.Strip(multiplierText)).value);
    var menu := FarmMenu(category, FarmLines(Dict.Get(c, category).value));
    var rest := Run(f, AwaitFarmId(category), later, c);
    assert rest == Outcome(Done(IncomeShown), [ModulesPrompt, MultiplierPrompt, FarmIncome(FormatIncome(total))]) by {
      FarmAnswers(f, c, category, fidText, modulesText, multiplierText);
    }
    assert Transition(f, AwaitCategory, m0, c) == Outcome(AwaitFarmId(category), [menu]) by {
      MenuNumberAnswered(f, c, choice, k);
    }
    assert Run(f, AwaitCategory, [m0] + later, c) == Outcome(rest.phase, [menu] + rest.replies) by {
      RunCons(f, AwaitCategory, m0, later, c);
    }
    PrependToThree(m0, later);
    PrependToThree(menu, rest.replies);
  }

  /** The worked figures: 1 module at rate 2 with multiplier 0.4 shows $800K/hour; with 0.6 it shows $1.20M/hour; a total of exactly 1 is shown in millions. */
  lemma IncomeExamples()
    ensures FormatIncome(1.0 * 2.0 * 0.4) == Thousands(800)
    ensures FormatIncome(1.0 * 2.0 * 0.6) == Millions(1.2)
    ensures FormatIncome(1.0) == Millions(1.0)
  {
  }

  // ---------------------------------------------------------------------
  // The catalog only grows, so the conversation never finds its choice gone

  /** Everything the phase refers to is in the catalog. */
  ghost predicate Coherent(f: Flow, p: Phase, c: Catalog) {
    match p
    case AwaitCategory => forall i :: 0 <= i < |f.categories| && f.categories[i] != Bones ==> Dict.Contains(c, f.categories[i])
    case AwaitFarmId(category) => Dict.Contains(c, category)
    case AwaitModules(category, fid) => FarmOf(c, category, fid).Some?
    case AwaitMultiplier(category, fid, _) => FarmOf(c, category, fid).Some?
    case Done(ending) => !ending.KeyErrorRaised?
    case _ => true
  }

  /** A fresh conversation refers only to categories of the catalog it was started from. */
  lemma StartIsCoherent(author: UserId, channel: ChannelId, c: Catalog)
    ensures Coherent(Flow(author, channel, Categories(c)), AwaitCategory, c)
  {
    var f := Flow(author, channel, Categories(c));
    forall i | 0 <= i < |f.categories| && f.categories[i] != Bones
      ensures Dict.Contains(c, f.categories[i])
    {
      assert f.categories[i] == Dict.Keys(c)[i];
    }
  }

  /**
   * However the catalog has grown (by `/addfarm`) since the previous step, a
   * step from a coherent phase leads to a coherent phase; in particular it
   * never raises the `KeyError` that a vanished category or farm would cause.
   */
  lemma StepKeepsCoherent(f: Flow, p: Phase, ev: Event, c: Catalog, c': Catalog)
    requires Coherent(f, p, c) && Extends(c, c')
    ensures Coherent(f, Transition(f, p, ev, c').phase, c')
    ensures Transition(f, p, ev, c').phase != Done(KeyErrorRaised)
  {
    if !p.Done? && Accepts(f, ev) {
      var answer := Text.Strip(ev.text);
      assert Transition(f, p, ev, c') == Answer(f, p, answer, c');
      match p
      case AwaitCategory =>
        var n := Text.ParseInt(answer);
        if n.Some? && 0 <= n.value - 1 < |f.categories| && f.categories[n.value - 1] != Bones {
          assert Dict.Contains(c, f.categories[n.value - 1]);
        }
      case AwaitFarmId(category) =>
        var farms := Dict.Get(c', category).value;
        if Dict.Contains(farms, answer) {
          assert FarmOf(c', category, answer).Some?;
        }
      case AwaitModules(category, fid) =>
        assert FarmOf(c', category, fid).Some?;
      case _ =>
    }
  }

  /** With a fixed catalog, a conversation that starts coherent never raises. */
  lemma {:induction false} RunNeverRaises(f: Flow, p: Phase, events: seq<Event>, c: Catalog)
    decreases |events|
    requires Coherent(f, p, c)
    ensures Coherent(f, Run(f, p, events, c).phase, c)
    ensures Run(f, p, events, c).phase != Done(KeyErrorRaised)
  {
    if events != [] {
      StepKeepsCoherent(f, p, events[0], c, c);
      RunNeverRaises(f, Transition(f, p, events[0], c).phase, events[1..], c);
    }
  }

  /** The trigger of `on_message`: a message from a non-bot whose stripped, lower-cased text is `!calculator`. */
  predicate StartsCalculator(fromBot: bool, content: string) {
    !fromBot && Text.Lower(Text.Strip(content)) == "!calculator"
  }

  /** A conversation starts on `!calculator` in any case, with any surrounding white space, from anyone but a bot. */
  lemma StartsCalculatorWords(fromBot: bool, content: string)
    ensures StartsCalculator(fromBot, content) <==> !fromBot && Text.SpellsIgnoringCase(Text.Strip(content), "!calculator")
  {
    Text.LowerEqualsWord(Text.Strip(content), "!calculator");
  }
}
