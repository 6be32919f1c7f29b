/** The program entry: read one line, parse it as an integer and dispatch
    once. Console banner and menu text are not modelled. */
module ZooProgram {
  import opened Results
  import opened Animals
  import opened WeightEntry
  import opened Menu

  datatype Run = NotANumber | Dispatched(action: MenuAction, effect: Effect)

  /** `choice` is the menu line after integer parsing (None when it did not
      parse); `weights` are the lines later typed at the weight prompt. */
  function Start(choice: Option<int>, weights: seq<Reading>): (r: Run)
    ensures r == NotANumber <==> choice.None?
    ensures r.Dispatched? ==> r.action == ProcessOption(choice.value) && r.effect == Perform(r.action, weights)
    ensures r.Dispatched? && r.effect == Exited <==> choice == Some(6)
    ensures r.Dispatched? && r.effect == OptionRejected <==> choice.Some? && !(1 <= choice.value <= 6)
  {
    match choice
    case None => NotANumber
    case Some(option) =>
      var action := ProcessOption(option);
      Dispatched(action, Perform(action, weights))
  }

  /** Choosing 3 shows Filly, Killer, Cyril and Goerge, in that order. */
  lemma TrackShowsRosterInOrder(weights: seq<Reading>)
    ensures Start(Some(3), weights).effect.Tracked?
    ensures |Start(Some(3), weights).effect.animals| == 4
    ensures forall i :: 0 <= i < 4 ==>
      Start(Some(3), weights).effect.animals[i].name == ["Filly", "Killer", "Cyril", "Goerge"][i]
      && Start(Some(3), weights).effect.animals[i].species == AllSpecies[i]
  {
  }

  /** Choosing 2 and typing "abc", -5, 20000, 150 adds an animal weighing 150. */
  lemma AddAnimalExample()
    ensures Start(Some(2), [None, Some(-5.0), Some(20000.0), Some(150.0)]).effect == AnimalAdded(150.0, 4)
  {
    ExampleDialogue();
  }
}
