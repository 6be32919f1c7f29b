# Joy Zoo management app — Dafny model

A model of the JOY ZOO console application (`Joy-Zoos/Program.cs`): four
animal variants (Elephant, Shark, Buffalo, Godzilla), each with a default
diet descriptor fixed by its constructor, a capability set and a feeding
rule; the menu that maps one integer option to one action; the weight prompt
of the add-animal dialogue, which retries until a reading parses and lies in
[0, 10000]; and the fixed demonstration roster shown by the tracking,
interaction and feeding-schedule actions.

Modules:

- `Results` — `Option` (a parse that may fail) and `Outcome` (an action that
  passes or fails with an error value; a thrown exception in the program).
- `Animals` — `FoodType`, `Diet`, `Species`, `Capability`, the `Animal`
  record, `NewAnimal` (construction plus object initializer), `Eat`, and
  `Capabilities`. `AcceptedFoods` is an independent table of what each
  feeding rule lets through.
- `WeightEntry` — the weight retry loop, both as a recursive function
  (`ReadWeight`) and as the do-while loop (`PromptWeight`), with the
  "first accepted line" predicate that both meet.
- `Menu` — option numbers, `ProcessOption`, the species list, the roster,
  the interaction round, the feeding schedule and `Perform`, which runs one
  action and returns its `Effect` in place of console output.
- `ZooProgram` — `Start`: integer parsing of the menu line, then one dispatch.

Console input is a parameter: the menu line arrives as `Option<int>` (the
result of integer parsing) and the lines typed at the weight prompt as a
sequence of `Option<real>` (the results of number parsing).

Age is a plain integer, possibly negative, as the `int` property
(Program.cs:92-96) and the unparsed age prompt (Program.cs:360-361) allow.

The tracking, interaction and feeding-schedule actions each build their own
list of four animals (Program.cs:408-411, 428-431, 472-475). The three lists
are identical field for field, so one function, `Roster`, models all three.

## Model

| member | source | states |
|---|---|---|
| Animals.NewAnimal | Joy-Zoos/Program.cs:124-244 | a constructed animal carries exactly the initializer's name, age, weight and habitat and its species' default diet |
| Animals.Eat | Joy-Zoos/Program.cs:139-262 | feeding passes exactly when the food is in the species' accepted set; only Elephant and Shark ever fail, each with its own invalid-food message |
| Animals.ElephantFeeding | Joy-Zoos/Program.cs:139-147 | an Elephant eats iff the food is Vegetation; Meat and Mixed give the invalid-food error |
| Animals.SharkFeeding | Joy-Zoos/Program.cs:181-188 | a Shark eats iff the food is Meat; Vegetation and Mixed give the invalid-food error |
| Animals.UnenforcedFeeding | Joy-Zoos/Program.cs:210-262 | Buffalo and Godzilla eat every category; a Buffalo eats Meat although its preferred food is Vegetation |
| Animals.EnforcedDietIsPreferredFood | Joy-Zoos/Program.cs:127-188 | for Elephant and Shark the single accepted food is the preferred food of the default diet |
| Animals.PreferredFoodAccepted | Joy-Zoos/Program.cs:127-262 | feeding any constructed animal its preferred food never fails |
| Animals.EatDependsOnlyOnSpecies | Joy-Zoos/Program.cs:139-262 | the feeding outcome depends on the species alone, not on diet, name or other fields |
| Animals.SameSpeciesSameDiet | Joy-Zoos/Program.cs:127-244 | two constructed instances of one species have equal diets |
| Animals.SchedulesDistinct | Joy-Zoos/Program.cs:127-244 | the four default schedule texts are pairwise different, so a schedule text identifies its species |
| Animals.Capabilities | Joy-Zoos/Program.cs:72-75 | no species has the fly capability |
| Animals.CapabilitySets | Joy-Zoos/Program.cs:124-238 | Elephant and Godzilla climb, Shark and Godzilla swim, Buffalo has no capability |
| Menu.ProcessOption | Joy-Zoos/Program.cs:296-328 | options 1 to 6 select a real action, every other integer selects the invalid-option action, only 6 selects the terminating action, and the selected action's menu number is the option |
| Menu.DispatchRoundTrip | Joy-Zoos/Program.cs:284-328 | choosing the number the menu lists for an action selects that action |
| Menu.DispatchInjective | Joy-Zoos/Program.cs:296-328 | two options selecting the same real action are the same option |
| Menu.AvailableAnimals | Joy-Zoos/Program.cs:331-347 | the first option lists the four species' names in declaration order |
| Menu.Roster | Joy-Zoos/Program.cs:408-411 | the roster has one constructed animal per species, in the order Elephant, Shark, Buffalo, Godzilla, with names, ages, weights and habitats Filly/24/4000/Zoo Forest, Killer/17/105/Aquaria, Cyril/67/78/Besides Entrance 1, Goerge/1532/8000/Zoo Forest |
| Menu.FeedInOrder | Joy-Zoos/Program.cs:423-461 | animals are fed in plan order, each with its planned food; the round stops right after the first refusal and covers the whole plan when no feeding fails |
| Menu.InteractionNeverFails | Joy-Zoos/Program.cs:428-460 | each animal in the interaction round is given its preferred food, so all four roster animals are fed without error |
| Menu.FoodSchedule | Joy-Zoos/Program.cs:464-482 | one schedule line per animal, in order, pairing its name with its diet's schedule text |
| Menu.RosterScheduleIsDefault | Joy-Zoos/Program.cs:472-482 | each roster schedule line shows the default schedule of that position's species |
| Menu.Perform | Joy-Zoos/Program.cs:296-328 | each action yields its own kind of effect: only Exit terminates, only the invalid option is rejected, listing yields the four species names, tracking the roster, interaction the in-order feeding round over the roster, the schedule the roster's schedule lines, and adding an animal records the first accepted weight exactly when some reading is accepted and stays pending otherwise |
| Menu.DemoActionsShareRoster | Joy-Zoos/Program.cs:401-482 | tracking, interaction and schedule actions all present the same four animals in roster order, and every feeding of the interaction action passes |
| WeightEntry.ReadWeight | Joy-Zoos/Program.cs:365-390 | the result is the first reading that parses and lies in [0, 10000], with every earlier reading refused; none exactly when no reading is accepted |
| WeightEntry.PromptWeight | Joy-Zoos/Program.cs:365-390 | the do-while loop returns the first accepted reading and the number of lines it consumed, or none when no reading is accepted |
| WeightEntry.FirstAcceptedUnique | Joy-Zoos/Program.cs:367-390 | the first accepted reading of an input is unique, so the loop and the recursive reading agree |
| WeightEntry.LaterInputIgnored | Joy-Zoos/Program.cs:367-390 | lines after an accepted weight do not change the result |
| WeightEntry.RefusedPrefixSkipped | Joy-Zoos/Program.cs:367-390 | refused lines in front of the input only add to the number of attempts |
| WeightEntry.ExampleDialogue | Joy-Zoos/Program.cs:367-390 | for an unparseable line, -5, 20000, 150 the weight 150 is accepted on the fourth attempt |
| ZooProgram.Start | Joy-Zoos/Program.cs:489-508 | an unparseable menu line is rejected without dispatch; otherwise the parsed option is dispatched once; the run exits iff the option is 6 and rejects the option iff it lies outside 1 to 6 |
| ZooProgram.TrackShowsRosterInOrder | Joy-Zoos/Program.cs:401-420 | choosing 3 shows Filly, Killer, Cyril and Goerge, of species Elephant, Shark, Buffalo, Godzilla, in that order |
| ZooProgram.AddAnimalExample | Joy-Zoos/Program.cs:350-398 | choosing 2 and typing an unparseable line, -5, 20000 and 150 adds an animal of weight 150 after four attempts |

## Left out

- Console output: banner, menu lines, "You selected" lines, the species list printing, "is eating/moving/making sound" lines, `DisplayInfo` formatting of the weight, the schedule line format. Actions return an `Effect` value instead.
- `Move`, `MakeSound`, `Climb` and `Swim`: each only prints a fixed line; capabilities are modelled as a set per species.
- `DisplayInfo`: it prints an animal's name, age, weight and habitat; the model keeps those four fields in the animal records of the `Tracked` effect instead of formatting them.
- The diagnostic line printed by the `InvalidFoodException` constructor: a refusal is a plain `Fail(InvalidFood(message))`.
- `Environment.Exit`: only the `Exit` action and the `Exited` effect are modelled, not process termination.
- `int.TryParse` and `double.TryParse`: library parsing; their results are inputs of type `Option<int>` and `Option<real>`. A parsed NaN or infinity is not representable as a real; the range check refuses both, so such a line behaves like an unparseable one.
- WeightEntry.ReadWeight: on a finite input with no accepted reading it returns none, while the program would keep prompting forever (a closed input stream parses as a failure on every later read).
- WeightEntry.PromptWeight: stops when the finite input runs out, for the same reason as `ReadWeight`.
- The classification, name, age and habitat prompts of the add-animal dialogue: their text is neither checked nor stored.
- `ZooMapException`, `AnimalType` and `HabitatType`: declared but never raised or read.
- `IFlyable` is implemented by no class; it survives only as the `Fly` capability, which no species has.
- Property setters on `Animal`: values are only assigned at construction, so animals are immutable records.
- Floating-point weights are modelled as reals; the roster weights and the range bounds are exact in both.
