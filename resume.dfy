/**
 * The character resume (src/engine/zone/resume.rs): the server sends a list
 * of named items; the client reads the eleven it knows into a resume, and
 * compares two resumes to choose which icons to blink.
 *
 * The eleven `Option` variables that `from_resume_texts` fills are modelled
 * as one map from an item name to the value read from it. `show` is the
 * text the source's formatting gives a float, which is not modelled.
 */
module Resume {

  import W = Wrappers
  import opened Ints
  import Event
  import Component
  import BlinkIcon

  datatype Health = Ok | Middle | Bad | Critical

  datatype CanEat = Yes | Lower | No

  datatype CanDrink = Yes | Lower | No

  /** The resume icons (src/engine/zone/gui/resume.rs), in their declaration order. */
  datatype ResumeItem =
    | Heart | Water | Food | HaveWater | HaveFood | Shield | Follow | Follower | Ok | Ko | Clock
    | GoodSmiley | NeutralSmiley | BadSmiley | CriticalSmiley | Warning | Sleep

  // The words the server uses.

  function HealthWord(h: Health): string
  {
    match h
    case Ok => "Ok"
    case Middle => "Moyen"
    case Bad => "Mauvais"
    case Critical => "Critique"
  }

  function CanEatWord(c: CanEat): string
  {
    match c
    case Yes => "Oui"
    case No => "Non"
    case Lower => "Faible"
  }

  function CanDrinkWord(c: CanDrink): string
  {
    match c
    case Yes => "Oui"
    case No => "Non"
    case Lower => "Faible"
  }

  /**
   * `Health::from_item`: the health whose word is the item's text; any other
   * text, or none, is an error.
   */
  function HealthFromItem(item: Event.ItemModel): (r: W.Result<Health>)
    ensures item.valueStr.None? ==> r == W.Err("Unable to understand Health : no value")
    ensures r.Ok? <==> item.valueStr.Some? && item.valueStr.value in {"Ok", "Moyen", "Mauvais", "Critique"}
    ensures r.Ok? ==> HealthWord(r.value) == item.valueStr.value
    ensures item.valueStr.Some? && r.Err? ==>
      r.error == "Unable to understand Health name ! '" + item.valueStr.value + "'"
  {
    if item.valueStr.Some? then
      var value := item.valueStr.value;
      if value == "Ok" then W.Ok(Health.Ok)
      else if value == "Moyen" then W.Ok(Middle)
      else if value == "Mauvais" then W.Ok(Bad)
      else if value == "Critique" then W.Ok(Critical)
      else W.Err("Unable to understand Health name ! '" + value + "'")
    else W.Err("Unable to understand Health : no value")
  }

  /** `CanEat::from_item`. */
  function CanEatFromItem(item: Event.ItemModel): (r: W.Result<CanEat>)
    ensures item.valueStr.None? ==> r == W.Err("Unable to understand A manger : no value")
    ensures r.Ok? <==> item.valueStr.Some? && item.valueStr.value in {"Oui", "Non", "Faible"}
    ensures r.Ok? ==> CanEatWord(r.value) == item.valueStr.value
    ensures item.valueStr.Some? && r.Err? ==>
      r.error == "Unable to understand A manger value : '" + item.valueStr.value + "'"
  {
    if item.valueStr.Some? then
      var value := item.valueStr.value;
      if value == "Oui" then W.Ok(CanEat.Yes)
      else if value == "Non" then W.Ok(CanEat.No)
      else if value == "Faible" then W.Ok(CanEat.Lower)
      else W.Err("Unable to understand A manger value : '" + value + "'")
    else W.Err("Unable to understand A manger : no value")
  }

  /** `CanDrink::from_item`. */
  function CanDrinkFromItem(item: Event.ItemModel): (r: W.Result<CanDrink>)
    ensures item.valueStr.None? ==> r == W.Err("Unable to understand A boire : no value")
    ensures r.Ok? <==> item.valueStr.Some? && item.valueStr.value in {"Oui", "Non", "Faible"}
    ensures r.Ok? ==> CanDrinkWord(r.value) == item.valueStr.value
    ensures item.valueStr.Some? && r.Err? ==>
      r.error == "Unable to understand A boire value : '" + item.valueStr.value + "'"
  {
    if item.valueStr.Some? then
      var value := item.valueStr.value;
      if value == "Oui" then W.Ok(CanDrink.Yes)
      else if value == "Non" then W.Ok(CanDrink.No)
      else if value == "Faible" then W.Ok(CanDrink.Lower)
      else W.Err("Unable to understand A boire value : '" + value + "'")
    else W.Err("Unable to understand A boire : no value")
  }

  /** Each value read back from its own word: the three readers are inverse to the words. */
  lemma WordsRoundTrip(item: Event.ItemModel, h: Health, e: CanEat, d: CanDrink)
    ensures HealthFromItem(item.(valueStr := W.Some(HealthWord(h)))) == W.Ok(h)
    ensures CanEatFromItem(item.(valueStr := W.Some(CanEatWord(e)))) == W.Ok(e)
    ensures CanDrinkFromItem(item.(valueStr := W.Some(CanDrinkWord(d)))) == W.Ok(d)
  {
    var rh := HealthFromItem(item.(valueStr := W.Some(HealthWord(h))));
    assert rh.Ok? && HealthWord(rh.value) == HealthWord(h);
    var re := CanEatFromItem(item.(valueStr := W.Some(CanEatWord(e))));
    assert re.Ok? && CanEatWord(re.value) == CanEatWord(e);
    var rd := CanDrinkFromItem(item.(valueStr := W.Some(CanDrinkWord(d))));
    assert rd.Ok? && CanDrinkWord(rd.value) == CanDrinkWord(d);
  }

  /** `Health::item`. */
  function HealthIcon(h: Health): ResumeItem
  {
    match h
    case Ok => GoodSmiley
    case Middle => NeutralSmiley
    case Bad => BadSmiley
    case Critical => CriticalSmiley
  }

  /** `CanEat::item`. */
  function CanEatIcon(c: CanEat): ResumeItem
  {
    match c
    case Yes => ResumeItem.Ok
    case Lower => Warning
    case No => Ko
  }

  /** `CanDrink::item`. */
  function CanDrinkIcon(c: CanDrink): ResumeItem
  {
    match c
    case Yes => ResumeItem.Ok
    case Lower => Warning
    case No => Ko
  }

  /**
   * The icons: each health has its own smiley; eating and drinking show the
   * same icon for the same answer, a different one for each answer.
   */
  lemma IconMapping(h1: Health, h2: Health, e1: CanEat, e2: CanEat, d: CanDrink)
    ensures HealthIcon(h1) in {GoodSmiley, NeutralSmiley, BadSmiley, CriticalSmiley}
    ensures HealthIcon(h1) == HealthIcon(h2) <==> h1 == h2
    ensures CanEatIcon(e1) == CanEatIcon(e2) <==> e1 == e2
    ensures CanDrinkIcon(d) == CanEatIcon(if d.Yes? then CanEat.Yes else if d.Lower? then CanEat.Lower else CanEat.No)
  {
  }

  // Reading the resume.

  /** The names `from_resume_texts` reads. */
  const PV := "PV"
  const PA := "PA"
  const FAIM := "Faim"
  const SOIF := "Soif"
  const FATIGUE := "Fatigue"
  const A_BOIRE := "A boire"
  const A_MANGER := "A manger"
  const SUIVIS := "Suivis"
  const SUIVEURS := "Suiveurs"
  const COMBATTANTS := "Combattants"
  const MESSAGES := "Messages"

  const RESUME_NAMES: set<string> :=
    {PV, PA, FAIM, SOIF, FATIGUE, A_BOIRE, A_MANGER, SUIVIS, SUIVEURS, COMBATTANTS, MESSAGES}

  /** What an item is read into. */
  datatype Reading =
    | HealthValue(health: Health)
    | PointsValue(points: real)
    | BarValue(bar: Component.ProgressBar)
    | DrinkValue(canDrink: CanDrink)
    | EatValue(canEat: CanEat)
    | CountValue(count: int)

  /** A counter: the item's number cast to `i32`, or the given error when it has none. */
  function CountOf(item: Event.ItemModel, error: string): W.Result<Reading>
  {
    if item.valueFloat.Some? then W.Ok(CountValue(TruncToI32(item.valueFloat.value))) else W.Err(error)
  }

  /** A bar, its error wrapped with the item's name. */
  function BarOf(item: Event.ItemModel, show: real -> string): W.Result<Reading>
  {
    var bar := Component.FromItem(item, show);
    if bar.Ok? then W.Ok(BarValue(bar.value))
    else W.Err("Unable to understand " + item.name + " : '" + bar.error + "'")
  }

  /** The arm of the loop's `match` for an item with a known name. */
  function ReadItem(item: Event.ItemModel, show: real -> string): (r: W.Result<Reading>)
    requires item.name in RESUME_NAMES
    ensures item.name == PV ==>
      && (r.Ok? <==> HealthFromItem(item).Ok?)
      && (r.Ok? ==> r.value.HealthValue? && HealthFromItem(item) == W.Ok(r.value.health))
    ensures item.name in {FAIM, SOIF, FATIGUE} ==>
      && (r.Ok? <==> Component.FromItem(item, show).Ok?)
      && (r.Ok? ==> r.value.BarValue? && Component.FromItem(item, show) == W.Ok(r.value.bar))
      && (r.Err? ==> r.error == "Unable to understand " + item.name + " : '" + Component.FromItem(item, show).error + "'")
    ensures item.name == PV && r.Err? ==> r.error == HealthFromItem(item).error
    ensures item.name == PA ==>
      && (r.Ok? <==> item.valueFloat.Some?)
      && (r.Ok? ==> r.value == PointsValue(item.valueFloat.value))
      && (r.Err? ==> r.error == "Unable to understand PA : no value")
    ensures item.name == A_BOIRE ==>
      && (r.Ok? <==> CanDrinkFromItem(item).Ok?)
      && (r.Ok? ==> r.value == DrinkValue(CanDrinkFromItem(item).value))
      && (r.Err? ==> r.error == CanDrinkFromItem(item).error)
    ensures item.name == A_MANGER ==>
      && (r.Ok? <==> CanEatFromItem(item).Ok?)
      && (r.Ok? ==> r.value == EatValue(CanEatFromItem(item).value))
      && (r.Err? ==> r.error == CanEatFromItem(item).error)
    ensures item.name in {SUIVIS, SUIVEURS, COMBATTANTS, MESSAGES} ==>
      && (r.Ok? <==> item.valueFloat.Some?)
      && (r.Ok? ==> r.value.CountValue? && IsI32(r.value.count))
      && (r.Ok? ==> r.value == CountValue(TruncToI32(item.valueFloat.value)))
    ensures item.name in {SUIVIS, SUIVEURS} && r.Err? ==> r.error == "Unable to understand Suivis : no value"
    ensures item.name == COMBATTANTS && r.Err? ==> r.error == "Unable to understand Combattants : no value"
    ensures item.name == MESSAGES && r.Err? ==> r.error == "Unable to understand Messages : no value"
  {
    var name := item.name;
    if name == PV then
      var h := HealthFromItem(item);
      if h.Ok? then W.Ok(HealthValue(h.value)) else W.Err(h.error)
    else if name == PA then
      if item.valueFloat.Some? then W.Ok(PointsValue(item.valueFloat.value))
      else W.Err("Unable to understand PA : no value")
    else if name == FAIM || name == SOIF || name == FATIGUE then BarOf(item, show)
    else if name == A_BOIRE then
      var d := CanDrinkFromItem(item);
      if d.Ok? then W.Ok(DrinkValue(d.value)) else W.Err(d.error)
    else if name == A_MANGER then
      var e := CanEatFromItem(item);
      if e.Ok? then W.Ok(EatValue(e.value)) else W.Err(e.error)
    else if name == SUIVIS || name == SUIVEURS then CountOf(item, "Unable to understand Suivis : no value")
    else if name == COMBATTANTS then CountOf(item, "Unable to understand Combattants : no value")
    else CountOf(item, "Unable to understand Messages : no value")
  }

  /** One turn of the loop: a known name replaces what was read under it, or stops everything; others are skipped. */
  function Step(found: map<string, Reading>, item: Event.ItemModel, show: real -> string): W.Result<map<string, Reading>>
  {
    if item.name in RESUME_NAMES then
      var r := ReadItem(item, show);
      if r.Ok? then W.Ok(found[item.name := r.value]) else W.Err(r.error)
    else W.Ok(found)
  }

  /** The loop over the items from `found` on, stopping at the first error. */
  function ReadAll(found: map<string, Reading>, items: seq<Event.ItemModel>, show: real -> string): W.Result<map<string, Reading>>
    decreases |items|
  {
    if items == [] then W.Ok(found)
    else
      var next := Step(found, items[0], show);
      if next.Ok? then ReadAll(next.value, items[1..], show) else W.Err(next.error)
  }

  datatype CharacterResume = CharacterResume(
    health: Health,
    actionPoints: real,
    hungry: Component.ProgressBar,
    thirsty: Component.ProgressBar,
    tiredness: Component.ProgressBar,
    canDrink: CanDrink,
    canEat: CanEat,
    follower: int,
    follow: int,
    fighters: int,
    messages: int)

  /** Each name was read into the kind of value its arm produces. */
  ghost predicate WellRead(found: map<string, Reading>)
  {
    && (PV in found ==> found[PV].HealthValue?)
    && (PA in found ==> found[PA].PointsValue?)
    && (FAIM in found ==> found[FAIM].BarValue?)
    && (SOIF in found ==> found[SOIF].BarValue?)
    && (FATIGUE in found ==> found[FATIGUE].BarValue?)
    && (A_BOIRE in found ==> found[A_BOIRE].DrinkValue?)
    && (A_MANGER in found ==> found[A_MANGER].EatValue?)
    && (SUIVIS in found ==> found[SUIVIS].CountValue?)
    && (SUIVEURS in found ==> found[SUIVEURS].CountValue?)
    && (COMBATTANTS in found ==> found[COMBATTANTS].CountValue?)
    && (MESSAGES in found ==> found[MESSAGES].CountValue?)
  }

  /** The names `from_resume_texts` checks after its loop, in order ("Combattants" has no check of its own). */
  const CHECKED_NAMES: seq<string> := [PV, PA, FAIM, SOIF, FATIGUE, A_BOIRE, A_MANGER, SUIVIS, SUIVEURS, MESSAGES]

  /** The error of each check of CHECKED_NAMES, at the same position. */
  const MISSING_MESSAGES: seq<string> := [
    "No PV resume found", "No AP resume found", "No hungry resume found", "No PV thirsty found",
    "No PV tiredness found", "No PV can_drink found", "No PV can_eat found", "No PV follow found",
    "No PV follower found", "No messages found"]

  /**
   * After the loop: the resume when all eleven were read, otherwise the
   * message of the first missing one in the order of the checks, where a
   * missing "Combattants" has no check of its own and falls to the last
   * message.
   */
  function Finish(found: map<string, Reading>): (r: W.Result<CharacterResume>)
    requires WellRead(found)
    ensures r.Ok? <==> RESUME_NAMES <= found.Keys
    ensures PV !in found ==> r == W.Err("No PV resume found")
    ensures RESUME_NAMES - {COMBATTANTS} <= found.Keys && COMBATTANTS !in found ==> r == W.Err("No PV resume found")
    ensures r.Ok? ==>
      && found[PV] == HealthValue(r.value.health)
      && found[PA] == PointsValue(r.value.actionPoints)
      && found[FAIM] == BarValue(r.value.hungry)
      && found[SOIF] == BarValue(r.value.thirsty)
      && found[FATIGUE] == BarValue(r.value.tiredness)
      && found[A_BOIRE] == DrinkValue(r.value.canDrink)
      && found[A_MANGER] == EatValue(r.value.canEat)
      && found[SUIVEURS] == CountValue(r.value.follower)
      && found[SUIVIS] == CountValue(r.value.follow)
      && found[COMBATTANTS] == CountValue(r.value.fighters)
      && found[MESSAGES] == CountValue(r.value.messages)
  {
    if RESUME_NAMES <= found.Keys then
      W.Ok(CharacterResume(
        found[PV].health, found[PA].points, found[FAIM].bar, found[SOIF].bar, found[FATIGUE].bar,
        found[A_BOIRE].canDrink, found[A_MANGER].canEat, found[SUIVEURS].count, found[SUIVIS].count,
        found[COMBATTANTS].count, found[MESSAGES].count))
    else if PV !in found then W.Err("No PV resume found")
    else if PA !in found then W.Err("No AP resume found")
    else if FAIM !in found then W.Err("No hungry resume found")
    else if SOIF !in found then W.Err("No PV thirsty found")
    else if FATIGUE !in found then W.Err("No PV tiredness found")
    else if A_BOIRE !in found then W.Err("No PV can_drink found")
    else if A_MANGER !in found then W.Err("No PV can_eat found")
    else if SUIVIS !in found then W.Err("No PV follow found")
    else if SUIVEURS !in found then W.Err("No PV follower found")
    else if MESSAGES !in found then W.Err("No messages found")
    else W.Err("No PV resume found")
  }

  /** With a check's name missing and every earlier checked name read, the read fails with that check's message. */
  lemma FinishFirstMissing(found: map<string, Reading>, k: nat)
    requires WellRead(found)
    requires k < |CHECKED_NAMES| && CHECKED_NAMES[k] !in found
    requires forall m | 0 <= m < k :: CHECKED_NAMES[m] in found
    ensures Finish(found) == W.Err(MISSING_MESSAGES[k])
  {
    var names := CHECKED_NAMES;
    assert names[0] == PV && names[1] == PA && names[2] == FAIM && names[3] == SOIF && names[4] == FATIGUE;
    assert names[5] == A_BOIRE && names[6] == A_MANGER && names[7] == SUIVIS && names[8] == SUIVEURS;
    assert names[9] == MESSAGES;
    assert names[k] in RESUME_NAMES;
  }

  lemma {:induction false} ReadAllWellRead(found: map<string, Reading>, items: seq<Event.ItemModel>, show: real -> string)
    requires WellRead(found)
    ensures ReadAll(found, items, show).Ok? ==> WellRead(ReadAll(found, items, show).value)
    decreases |items|
  {
    if items != [] {
      var next := Step(found, items[0], show);
      if next.Ok? {
        ReadAllWellRead(next.value, items[1..], show);
      }
    }
  }

  /** `CharacterResume::from_resume_texts`, as a function of the items. */
  function FromResumeTexts(items: seq<Event.ItemModel>, show: real -> string): W.Result<CharacterResume>
  {
    var found := ReadAll(map[], items, show);
    ReadAllWellRead(map[], items, show);
    if found.Ok? then Finish(found.value) else W.Err(found.error)
  }

  /** The loop of `from_resume_texts` over the items, then the checks. */
  method ReadResume(items: seq<Event.ItemModel>, show: real -> string) returns (r: W.Result<CharacterResume>)
    ensures r == FromResumeTexts(items, show)
  {
    var found: map<string, Reading> := map[];
    for i := 0 to |items|
      invariant ReadAll(map[], items, show) == ReadAll(found, items[i..], show)
    {
      assert items[i..][1..] == items[i + 1..];
      var item := items[i];
      if item.name in RESUME_NAMES {
        var value := ReadItem(item, show);
        if value.Err? {
          return W.Err(value.error);
        }
        found := found[item.name := value.value];
      }
    }
    ReadAllWellRead(map[], items, show);
    return Finish(found);
  }

  /** Reading a list in two parts: the second part starts from what the first left, unless it failed. */
  lemma {:induction false} ReadAllAppend(found: map<string, Reading>, a: seq<Event.ItemModel>,
                                         b: seq<Event.ItemModel>, show: real -> string)
    ensures ReadAll(found, a + b, show) ==
      (var left := ReadAll(found, a, show); if left.Ok? then ReadAll(left.value, b, show) else left)
    decreases |a|
  {
    if a != [] {
      assert (a + b)[0] == a[0] && (a + b)[1..] == a[1..] + b;
      var next := Step(found, a[0], show);
      if next.Ok? {
        ReadAllAppend(next.value, a[1..], b, show);
      }
    } else {
      assert a + b == b;
    }
  }

  /** An item whose name is not one of the eleven changes nothing, wherever it stands. */
  lemma UnknownItemIgnored(a: seq<Event.ItemModel>, x: Event.ItemModel, b: seq<Event.ItemModel>, show: real -> string)
    requires x.name !in RESUME_NAMES
    ensures FromResumeTexts(a + [x] + b, show) == FromResumeTexts(a + b, show)
  {
    ReadAllAppend(map[], a + [x], b, show);
    ReadAllAppend(map[], a, [x], show);
    ReadAllAppend(map[], a, b, show);
    var left := ReadAll(map[], a, show);
    if left.Ok? {
      assert ReadAll(left.value, [x], show) == ReadAll(left.value, [], show);
    }
  }

  /** The first known item, in list order, that cannot be read decides the error. */
  lemma FirstUnreadableAborts(items: seq<Event.ItemModel>, i: nat, show: real -> string)
    requires i < |items| && items[i].name in RESUME_NAMES && ReadItem(items[i], show).Err?
    requires ReadAll(map[], items[..i], show).Ok?
    ensures FromResumeTexts(items, show) == W.Err(ReadItem(items[i], show).error)
  {
    assert items == items[..i] + items[i..];
    ReadAllAppend(map[], items[..i], items[i..], show);
  }

  /** The index of the last item named `name`, if any. */
  function LastNamed(items: seq<Event.ItemModel>, name: string): (r: W.Option<nat>)
    ensures r.Some? ==>
      && r.value < |items| && items[r.value].name == name
      && forall j | r.value < j < |items| :: items[j].name != name
    ensures r.None? ==> forall j | 0 <= j < |items| :: items[j].name != name
    decreases |items|
  {
    if items == [] then W.None
    else if items[|items| - 1].name == name then W.Some(|items| - 1)
    else LastNamed(items[..|items| - 1], name)
  }

  /**
   * When the loop gets through, each known name holds what was read from
   * the last item of that name, and a name no item has is not found: a
   * later item overwrites an earlier one.
   */
  lemma {:induction false} LastItemWins(found: map<string, Reading>, items: seq<Event.ItemModel>, show: real -> string,
                                       name: string)
    requires ReadAll(found, items, show).Ok? && name in RESUME_NAMES
    ensures var after := ReadAll(found, items, show).value;
      match LastNamed(items, name)
      case Some(i) => name in after && W.Ok(after[name]) == ReadItem(items[i], show)
      case None => (name in after <==> name in found) && (name in found ==> after[name] == found[name])
    decreases |items|
  {
    if items != [] {
      var n := |items| - 1;
      var init := items[..n];
      assert items == init + [items[n]];
      ReadAllAppend(found, init, [items[n]], show);
      var middle := ReadAll(found, init, show);
      LastItemWins(found, init, show, name);
      if items[n].name != name {
        assert LastNamed(items, name) == LastNamed(init, name);
      }
      assert ReadAll(middle.value, [items[n]], show) == Step(middle.value, items[n], show);
    }
  }

  /** The last item named `name` exists and reads as `reading`. */
  predicate LastReadsAs(items: seq<Event.ItemModel>, show: real -> string, name: string, reading: Reading)
  {
    && name in RESUME_NAMES
    && LastNamed(items, name).Some?
    && ReadItem(items[LastNamed(items, name).value], show) == W.Ok(reading)
  }

  /**
   * A resume that is read has each field from the last item of its name:
   * "Suiveurs" gives `follower` and "Suivis" gives `follow`.
   */
  lemma ResumeFieldsFromLastItems(items: seq<Event.ItemModel>, show: real -> string)
    requires FromResumeTexts(items, show).Ok?
    ensures var res := FromResumeTexts(items, show).value;
      && LastReadsAs(items, show, PV, HealthValue(res.health))
      && LastReadsAs(items, show, PA, PointsValue(res.actionPoints))
      && LastReadsAs(items, show, FAIM, BarValue(res.hungry))
      && LastReadsAs(items, show, SOIF, BarValue(res.thirsty))
      && LastReadsAs(items, show, FATIGUE, BarValue(res.tiredness))
      && LastReadsAs(items, show, A_BOIRE, DrinkValue(res.canDrink))
      && LastReadsAs(items, show, A_MANGER, EatValue(res.canEat))
      && LastReadsAs(items, show, SUIVEURS, CountValue(res.follower))
      && LastReadsAs(items, show, SUIVIS, CountValue(res.follow))
      && LastReadsAs(items, show, COMBATTANTS, CountValue(res.fighters))
      && LastReadsAs(items, show, MESSAGES, CountValue(res.messages))
  {
    forall name | name in RESUME_NAMES
      ensures LastNamed(items, name).Some?
      ensures ReadItem(items[LastNamed(items, name).value], show) == W.Ok(ReadAll(map[], items, show).value[name])
    {
      LastItemWins(map[], items, show, name);
    }
  }

  /** Reading succeeds exactly when no known item is unreadable and all eleven names occur. */
  lemma ResumeNeedsAllEleven(items: seq<Event.ItemModel>, show: real -> string)
    requires ReadAll(map[], items, show).Ok?
    ensures FromResumeTexts(items, show).Ok? <==>
      forall name | name in RESUME_NAMES :: exists i | 0 <= i < |items| :: items[i].name == name
  {
    var found := ReadAll(map[], items, show).value;
    forall name | name in RESUME_NAMES
      ensures name in found <==> exists i | 0 <= i < |items| :: items[i].name == name
    {
      LastItemWins(map[], items, show, name);
      var last := LastNamed(items, name);
      if last.Some? {
        assert items[last.value].name == name;
      }
    }
  }

  // Comparing two resumes.

  /** The icons in the order `icons_from_compare` tests the fields. */
  const COMPARED: seq<ResumeItem> := [Clock, Heart, Food, Water, Sleep, HaveWater, HaveFood, Follow, Follower, Shield]

  /** Whether the field an icon stands for differs; "Messages" has no icon and is not compared. */
  predicate Differs(item: ResumeItem, before: CharacterResume, after: CharacterResume)
  {
    match item
    case Clock => before.actionPoints != after.actionPoints
    case Heart => before.health != after.health
    case Food => before.hungry != after.hungry
    case Water => before.thirsty != after.thirsty
    case Sleep => before.tiredness != after.tiredness
    case HaveWater => before.canDrink != after.canDrink
    case HaveFood => before.canEat != after.canEat
    case Follow => before.follow != after.follow
    case Follower => before.follower != after.follower
    case Shield => before.fighters != after.fighters
    case _ => false
  }

  /** The icons among `items` whose field differs, in order. */
  function ChangedAmong(items: seq<ResumeItem>, before: CharacterResume, after: CharacterResume): seq<ResumeItem>
    decreases |items|
  {
    if items == [] then []
    else
      var last := items[|items| - 1];
      ChangedAmong(items[..|items| - 1], before, after) + (if Differs(last, before, after) then [last] else [])
  }

  /** The icons whose field differs, in the fixed order of the comparisons. */
  function ChangedIcons(before: CharacterResume, after: CharacterResume): seq<ResumeItem>
  {
    ChangedAmong(COMPARED, before, after)
  }

  /** An icon is kept exactly when it is among `items` and its field differs. */
  lemma {:induction false} ChangedAmongMembers(items: seq<ResumeItem>, before: CharacterResume, after: CharacterResume)
    ensures forall x :: x in ChangedAmong(items, before, after) <==> x in items && Differs(x, before, after)
    decreases |items|
  {
    if items != [] {
      var init := items[..|items| - 1];
      ChangedAmongMembers(init, before, after);
      assert items == init + [items[|items| - 1]];
    }
  }

  /** Two comparisons that agree on every icon give the same icons. */
  lemma {:induction false} ChangedAmongUnchanged(items: seq<ResumeItem>, before: CharacterResume,
                                                a1: CharacterResume, a2: CharacterResume)
    requires forall x | x in items :: Differs(x, before, a1) == Differs(x, before, a2)
    ensures ChangedAmong(items, before, a1) == ChangedAmong(items, before, a2)
    decreases |items|
  {
    if items != [] {
      var init := items[..|items| - 1];
      assert forall x | x in init :: x in items;
      ChangedAmongUnchanged(init, before, a1, a2);
    }
  }

  /** An icon is blinked exactly when its field is one of the ten compared and differs. */
  lemma ChangedIconsMembers(before: CharacterResume, after: CharacterResume)
    ensures forall x :: x in ChangedIcons(before, after) <==> x in COMPARED && Differs(x, before, after)
  {
    ChangedAmongMembers(COMPARED, before, after);
  }

  /** Comparing a resume with itself blinks nothing. */
  lemma {:induction false} ChangedAmongSame(items: seq<ResumeItem>, resume: CharacterResume)
    ensures ChangedAmong(items, resume, resume) == []
    decreases |items|
  {
    if items != [] {
      ChangedAmongSame(items[..|items| - 1], resume);
      var last := items[|items| - 1];
      assert !Differs(last, resume, resume);
    }
  }

  /** The messages count is not compared. */
  lemma ChangedIconsIgnoreMessages(before: CharacterResume, after: CharacterResume, messages: int)
    ensures ChangedIcons(before, after.(messages := messages)) == ChangedIcons(before, after)
  {
    ChangedAmongUnchanged(COMPARED, before, after, after.(messages := messages));
  }

  /** The icon of the `k`th comparison goes after those of the ones before it. */
  lemma ChangedPrefixStep(before: CharacterResume, after: CharacterResume, k: nat)
    requires k < |COMPARED|
    ensures ChangedAmong(COMPARED[..k + 1], before, after) ==
      ChangedAmong(COMPARED[..k], before, after) + Pushed(COMPARED[k], before, after)
  {
    assert COMPARED[..k + 1][..k] == COMPARED[..k];
  }

  /** The icon pushed by one comparison. */
  function Pushed(item: ResumeItem, before: CharacterResume, after: CharacterResume): seq<ResumeItem>
  {
    if Differs(item, before, after) then [item] else []
  }

  /** The ten comparisons one after the other. */
  lemma ChangedIconsUnfold(before: CharacterResume, after: CharacterResume)
    ensures ChangedIcons(before, after) ==
      Pushed(Clock, before, after) + Pushed(Heart, before, after) + Pushed(Food, before, after)
      + Pushed(Water, before, after) + Pushed(Sleep, before, after) + Pushed(HaveWater, before, after)
      + Pushed(HaveFood, before, after) + Pushed(Follow, before, after) + Pushed(Follower, before, after)
      + Pushed(Shield, before, after)
  {
    assert ChangedAmong(COMPARED[..0], before, after) == [];
    ChangedPrefixStep(before, after, 0);
    assert ChangedAmong(COMPARED[..1], before, after) == Pushed(Clock, before, after);
    ChangedPrefixStep(before, after, 1);
    assert ChangedAmong(COMPARED[..2], before, after) == Pushed(Clock, before, after) + Pushed(Heart, before, after);
    ChangedPrefixStep(before, after, 2);
    assert ChangedAmong(COMPARED[..3], before, after) == Pushed(Clock, before, after) + Pushed(Heart, before, after) + Pushed(Food, before, after);
    ChangedPrefixStep(before, after, 3);
    assert ChangedAmong(COMPARED[..4], before, after) == Pushed(Clock, before, after) + Pushed(Heart, before, after) + Pushed(Food, before, after) + Pushed(Water, before, after);
    ChangedPrefixStep(before, after, 4);
    assert ChangedAmong(COMPARED[..5], before, after) == Pushed(Clock, before, after) + Pushed(Heart, before, after) + Pushed(Food, before, after) + Pushed(Water, before, after) + Pushed(Sleep, before, after);
    ChangedPrefixStep(before, after, 5);
    assert ChangedAmong(COMPARED[..6], before, after) == Pushed(Clock, before, after) + Pushed(Heart, before, after) + Pushed(Food, before, after) + Pushed(Water, before, after) + Pushed(Sleep, before, after) + Pushed(HaveWater, before, after);
    ChangedPrefixStep(before, after, 6);
    assert ChangedAmong(COMPARED[..7], before, after) == Pushed(Clock, before, after) + Pushed(Heart, before, after) + Pushed(Food, before, after) + Pushed(Water, before, after) + Pushed(Sleep, before, after) + Pushed(HaveWater, before, after) + Pushed(HaveFood, before, after);
    ChangedPrefixStep(before, after, 7);
    assert ChangedAmong(COMPARED[..8], before, after) == Pushed(Clock, before, after) + Pushed(Heart, before, after) + Pushed(Food, before, after) + Pushed(Water, before, after) + Pushed(Sleep, before, after) + Pushed(HaveWater, before, after) + Pushed(HaveFood, before, after) + Pushed(Follow, before, after);
    ChangedPrefixStep(before, after, 8);
    assert ChangedAmong(COMPARED[..9], before, after) == Pushed(Clock, before, after) + Pushed(Heart, before, after) + Pushed(Food, before, after) + Pushed(Water, before, after) + Pushed(Sleep, before, after) + Pushed(HaveWater, before, after) + Pushed(HaveFood, before, after) + Pushed(Follow, before, after) + Pushed(Follower, before, after);
    ChangedPrefixStep(before, after, 9);
    assert ChangedAmong(COMPARED[..10], before, after) == Pushed(Clock, before, after) + Pushed(Heart, before, after) + Pushed(Food, before, after) + Pushed(Water, before, after) + Pushed(Sleep, before, after) + Pushed(HaveWater, before, after) + Pushed(HaveFood, before, after) + Pushed(Follow, before, after) + Pushed(Follower, before, after) + Pushed(Shield, before, after);
    assert COMPARED[..10] == COMPARED;
  }

  /** A tileset rectangle. */
  datatype Rect = Rect(x: real, y: real, w: real, h: real)

  /** `ResumeItem::source`: the icons are stacked in one column of the tileset, in declaration order. */
  function IconSource(item: ResumeItem): Rect
  {
    var row := match item
      case Heart => 0 case Water => 1 case Food => 2 case HaveWater => 3 case HaveFood => 4
      case Shield => 5 case Follow => 6 case Follower => 7 case Ok => 8 case Ko => 9 case Clock => 10
      case GoodSmiley => 11 case NeutralSmiley => 12 case BadSmiley => 13 case CriticalSmiley => 14
      case Warning => 15 case Sleep => 16;
    Rect(200.0, 1100.0 + 20.0 * row as real, 20.0, 20.0)
  }

  /**
   * `icons_from_compare`: the ten comparisons push the icons of the fields
   * that differ, and each gets a fresh blinking icon showing its rectangle.
   */
  method IconsFromCompare(before: CharacterResume, after: CharacterResume)
    returns (icons: seq<BlinkIcon.BlinkingIcon<Rect>>)
    ensures |icons| == |ChangedIcons(before, after)|
    ensures forall i | 0 <= i < |icons| ::
      && fresh(icons[i]) && icons[i].Valid() && icons[i].frameCounter == 0
      && icons[i].source == IconSource(ChangedIcons(before, after)[i])
  {
    var resumeItems := ChangedItems(before, after);
    icons := [];
    for i := 0 to |resumeItems|
      invariant |icons| == i
      invariant forall k | 0 <= k < i ::
        fresh(icons[k]) && icons[k].Valid() && icons[k].frameCounter == 0 && icons[k].source == IconSource(resumeItems[k])
    {
      var icon := new BlinkIcon.BlinkingIcon(IconSource(resumeItems[i]));
      icons := icons + [icon];
    }
  }

  /** One push of `icons_from_compare`: the icon is added exactly when its field differs. */
  lemma PushStep(prev: seq<ResumeItem>, next: seq<ResumeItem>, differs: bool, item: ResumeItem,
                 before: CharacterResume, after: CharacterResume, pushed: seq<ResumeItem>)
    requires differs == Differs(item, before, after) && prev == pushed
    requires next == if differs then prev + [item] else prev
    ensures next == pushed + Pushed(item, before, after)
  {
  }

  /** The pushes of `icons_from_compare`: one comparison per field, in the fixed order. */
  method ChangedItems(before: CharacterResume, after: CharacterResume) returns (resumeItems: seq<ResumeItem>)
    ensures resumeItems == ChangedIcons(before, after)
  {
    resumeItems := [];
    ghost var prev := resumeItems;
    if before.actionPoints != after.actionPoints {
      resumeItems := resumeItems + [Clock];
    }
    PushStep(prev, resumeItems, before.actionPoints != after.actionPoints, Clock, before, after, []);
    ghost var pushed := Pushed(Clock, before, after);
    assert resumeItems == pushed;
    prev := resumeItems;
    if before.health != after.health {
      resumeItems := resumeItems + [Heart];
    }
    PushStep(prev, resumeItems, before.health != after.health, Heart, before, after, pushed);
    pushed := pushed + Pushed(Heart, before, after);
    prev := resumeItems;
    if before.hungry != after.hungry {
      resumeItems := resumeItems + [Food];
    }
    PushStep(prev, resumeItems, before.hungry != after.hungry, Food, before, after, pushed);
    pushed := pushed + Pushed(Food, before, after);
    prev := resumeItems;
    if before.thirsty != after.thirsty {
      resumeItems := resumeItems + [Water];
    }
    PushStep(prev, resumeItems, before.thirsty != after.thirsty, Water, before, after, pushed);
    pushed := pushed + Pushed(Water, before, after);
    prev := resumeItems;
    if before.tiredness != after.tiredness {
      resumeItems := resumeItems + [Sleep];
    }
    PushStep(prev, resumeItems, before.tiredness != after.tiredness, Sleep, before, after, pushed);
    pushed := pushed + Pushed(Sleep, before, after);
    prev := resumeItems;
    if before.canDrink != after.canDrink {
      resumeItems := resumeItems + [HaveWater];
    }
    PushStep(prev, resumeItems, before.canDrink != after.canDrink, HaveWater, before, after, pushed);
    pushed := pushed + Pushed(HaveWater, before, after);
    prev := resumeItems;
    if before.canEat != after.canEat {
      resumeItems := resumeItems + [HaveFood];
    }
    PushStep(prev, resumeItems, before.canEat != after.canEat, HaveFood, before, after, pushed);
    pushed := pushed + Pushed(HaveFood, before, after);
    prev := resumeItems;
    if before.follow != after.follow {
      resumeItems := resumeItems + [Follow];
    }
    PushStep(prev, resumeItems, before.follow != after.follow, Follow, before, after, pushed);
    pushed := pushed + Pushed(Follow, before, after);
    prev := resumeItems;
    if before.follower != after.follower {
      resumeItems := resumeItems + [Follower];
    }
    PushStep(prev, resumeItems, before.follower != after.follower, Follower, before, after, pushed);
    pushed := pushed + Pushed(Follower, before, after);
    prev := resumeItems;
    if before.fighters != after.fighters {
      resumeItems := resumeItems + [Shield];
    }
    PushStep(prev, resumeItems, before.fighters != after.fighters, Shield, before, after, pushed);
    pushed := pushed + Pushed(Shield, before, after);
    ChangedIconsUnfold(before, after);
  }
}
