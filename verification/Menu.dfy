/** The menu controller: option numbers, the dispatch of one option to one
    action, and what each action does with the fixed demonstration roster. */
module Menu {
  import opened Results
  import opened Animals
  import opened WeightEntry

  datatype MenuAction =
    | ListAnimals
    | AddAnimal
    | Track
    | Interact
    | ShowSchedule
    | Exit
    | InvalidOption
  {
    /** Only Exit ends the process from inside the menu. */
    predicate Terminates() {
      this == Exit
    }
  }

  /** The number the menu listing shows in front of each action. */
  function OptionNumber(a: MenuAction): Option<int> {
    match a
    case ListAnimals => Some(1)
    case AddAnimal => Some(2)
    case Track => Some(3)
    case Interact => Some(4)
    case ShowSchedule => Some(5)
    case Exit => Some(6)
    case InvalidOption => None
  }

  /** The switch on the chosen option; every integer lands on one action. */
  function ProcessOption(option: int): (a: MenuAction)
    ensures a == InvalidOption <==> !(1 <= option <= 6)
    ensures a.Terminates() <==> option == 6
    ensures a != InvalidOption ==> OptionNumber(a) == Some(option)
  {
    match option
    case 1 => ListAnimals
    case 2 => AddAnimal
    case 3 => Track
    case 4 => Interact
    case 5 => ShowSchedule
    case 6 => Exit
    case _ => InvalidOption
  }

  /** Choosing the number the menu shows for an action selects that action. */
  lemma DispatchRoundTrip(a: MenuAction)
    requires a != InvalidOption
    ensures OptionNumber(a).Some?
    ensures ProcessOption(OptionNumber(a).value) == a
  {
  }

  /** Distinct valid options select distinct actions. */
  lemma DispatchInjective(x: int, y: int)
    requires ProcessOption(x) == ProcessOption(y) != InvalidOption
    ensures x == y
  {
  }

  /** The species names listed by the first option. */
  function AvailableAnimals(): (names: seq<string>)
    ensures |names| == |AllSpecies|
    ensures forall i :: 0 <= i < |names| ==> names[i] == SpeciesName(AllSpecies[i])
  {
    ["Elephant", "Shark", "Buffalo", "Godzilla"]
  }

  /** The four animals every demonstration action builds afresh. */
  function Roster(): (r: seq<Animal>)
    ensures |r| == |AllSpecies|
    ensures forall i :: 0 <= i < |r| ==> r[i].species == AllSpecies[i] && Constructed(r[i])
    ensures r[0].name == "Filly" && r[0].age == 24 && r[0].weight == 4000.0 && r[0].habitat == "Zoo Forest"
    ensures r[1].name == "Killer" && r[1].age == 17 && r[1].weight == 105.0 && r[1].habitat == "Aquaria"
    ensures r[2].name == "Cyril" && r[2].age == 67 && r[2].weight == 78.0 && r[2].habitat == "Besides Entrance 1"
    ensures r[3].name == "Goerge" && r[3].age == 1532 && r[3].weight == 8000.0 && r[3].habitat == "Zoo Forest"
  {
    [
      NewAnimal(Elephant, "Filly", 24, 4000.0, "Zoo Forest"),
      NewAnimal(Shark, "Killer", 17, 105.0, "Aquaria"),
      NewAnimal(Buffalo, "Cyril", 67, 78.0, "Besides Entrance 1"),
      NewAnimal(Godzilla, "Goerge", 1532, 8000.0, "Zoo Forest")
    ]
  }

  /** One animal fed during the interaction round, and how the feeding went. */
  datatype Interaction = Interaction(animal: Animal, food: FoodType, fed: Outcome<FoodError>)

  /** Feeds each planned animal in order. A refusal is an exception nobody
      catches, so nothing after the first refusal happens. */
  function FeedInOrder(plan: seq<(Animal, FoodType)>): (r: seq<Interaction>)
    ensures |r| <= |plan|
    ensures forall i :: 0 <= i < |r| ==>
      r[i].animal == plan[i].0 && r[i].food == plan[i].1 && r[i].fed == Eat(plan[i].0, plan[i].1)
    ensures forall i :: 0 <= i < |r| - 1 ==> r[i].fed.Pass?
    ensures |r| < |plan| ==> 0 < |r| && r[|r| - 1].fed.Fail?
    ensures (forall i :: 0 <= i < |plan| ==> Eat(plan[i].0, plan[i].1).Pass?) ==> |r| == |plan|
  {
    if |plan| == 0 then []
    else
      var step := Interaction(plan[0].0, plan[0].1, Eat(plan[0].0, plan[0].1));
      if step.fed.Fail? then [step] else [step] + FeedInOrder(plan[1..])
  }

  /** The interaction round: the roster's animals with the food each is given. */
  function InteractionPlan(): seq<(Animal, FoodType)> {
    var r := Roster();
    [(r[0], Vegetation), (r[1], Meat), (r[2], Vegetation), (r[3], Mixed)]
  }

  /** Every animal in the interaction round is fed its own preferred food, so
      the round never raises and all four animals are fed. */
  lemma InteractionNeverFails()
    ensures forall i :: 0 <= i < |InteractionPlan()| ==>
      InteractionPlan()[i].1 == InteractionPlan()[i].0.diet.preferredFood
    ensures |FeedInOrder(InteractionPlan())| == |Roster()|
    ensures forall i :: 0 <= i < |Roster()| ==>
      FeedInOrder(InteractionPlan())[i].animal == Roster()[i] && FeedInOrder(InteractionPlan())[i].fed == Pass
  {
    var plan := InteractionPlan();
    forall i | 0 <= i < |plan|
      ensures Eat(plan[i].0, plan[i].1).Pass?
    {
      PreferredFoodAccepted(plan[i].0);
    }
  }

  /** One line of the feeding schedule. */
  datatype ScheduleLine = ScheduleLine(name: string, schedule: string)

  /** Pairs each animal's name with its diet's schedule text, in order. */
  function FoodSchedule(animals: seq<Animal>): (r: seq<ScheduleLine>)
    ensures |r| == |animals|
    ensures forall i :: 0 <= i < |r| ==>
      r[i].name == animals[i].name && r[i].schedule == animals[i].diet.feedingSchedule
  {
    if |animals| == 0 then []
    else [ScheduleLine(animals[0].name, animals[0].diet.feedingSchedule)] + FoodSchedule(animals[1..])
  }

  /** Each schedule line of the roster shows that species' default schedule. */
  lemma RosterScheduleIsDefault()
    ensures forall i :: 0 <= i < |Roster()| ==>
      FoodSchedule(Roster())[i] == ScheduleLine(Roster()[i].name, DefaultDiet(AllSpecies[i]).feedingSchedule)
  {
  }

  /** What one dispatched action leaves behind, in place of its console output. */
  datatype Effect =
    | SpeciesListed(names: seq<string>)
    | AnimalAdded(weight: real, attempts: nat)
    | WeightPending
    | Tracked(animals: seq<Animal>)
    | Interacted(steps: seq<Interaction>)
    | ScheduleShown(lines: seq<ScheduleLine>)
    | Exited
    | OptionRejected

  /** Runs one action; `weights` are the lines typed at the weight prompt. */
  function Perform(a: MenuAction, weights: seq<Reading>): (e: Effect)
    ensures e == Exited <==> a.Terminates()
    ensures e == OptionRejected <==> a == InvalidOption
    ensures e.AnimalAdded? ==> a == AddAnimal && IsFirstAccepted(weights, Entry(e.weight, e.attempts))
    ensures e == WeightPending <==> a == AddAnimal && NoneAccepted(weights)
    ensures e.AnimalAdded? <==> a == AddAnimal && !NoneAccepted(weights)
    ensures e.SpeciesListed? <==> a == ListAnimals
    ensures e.Tracked? <==> a == Track
    ensures e.Interacted? <==> a == Interact
    ensures e.ScheduleShown? <==> a == ShowSchedule
    ensures e.SpeciesListed? ==> e.names == AvailableAnimals()
    ensures e.Tracked? ==> e.animals == Roster()
    ensures e.Interacted? ==> e.steps == FeedInOrder(InteractionPlan())
    ensures e.ScheduleShown? ==> e.lines == FoodSchedule(Roster())
  {
    match a
    case ListAnimals => SpeciesListed(AvailableAnimals())
    case AddAnimal =>
      (match ReadWeight(weights)
       case Some(entry) => AnimalAdded(entry.weight, entry.attempts)
       case None => WeightPending)
    case Track => Tracked(Roster())
    case Interact => Interacted(FeedInOrder(InteractionPlan()))
    case ShowSchedule => ScheduleShown(FoodSchedule(Roster()))
    case Exit => Exited
    case InvalidOption => OptionRejected
  }

  /** The three demonstration actions all show the same animals, in roster order. */
  lemma DemoActionsShareRoster(weights: seq<Reading>)
    ensures Perform(Track, weights).animals == Roster()
    ensures |Perform(Interact, weights).steps| == |Roster()|
    ensures forall i :: 0 <= i < |Roster()| ==>
      Perform(Interact, weights).steps[i].animal == Roster()[i]
      && Perform(Interact, weights).steps[i].fed == Pass
      && Perform(ShowSchedule, weights).lines[i].name == Roster()[i].name
  {
    InteractionNeverFails();
  }
}
