/** The animal domain of the zoo: the food categories, the diet descriptor,
    the four species with their default diets and capabilities, and the
    feeding rule each species applies. */
module Animals {
  import opened Results

  datatype FoodType = Meat | Vegetation | Mixed

  /** Preferred food category paired with a feeding-schedule text. */
  datatype Diet = Diet(preferredFood: FoodType, feedingSchedule: string)

  /** The closed set of animal variants. */
  datatype Species = Elephant | Shark | Buffalo | Godzilla

  /** Extra behaviours an animal variant may expose beyond the base contract. */
  datatype Capability = Climb | Swim | Fly

  /** An animal as the program builds it: identity, biometrics, habitat and
      diet. Weight is a real; its range is only checked at data entry. */
  datatype Animal = Animal(
    species: Species,
    name: string,
    age: int,
    weight: real,
    habitat: string,
    diet: Diet)

  /** The error an animal signals when fed a category it refuses. */
  datatype FoodError = InvalidFood(message: string)

  const AllFoods: set<FoodType> := {Meat, Vegetation, Mixed}

  lemma AllFoodsComplete(food: FoodType)
    ensures food in AllFoods
  {
  }

  const AllSpecies: seq<Species> := [Elephant, Shark, Buffalo, Godzilla]

  /** The class name of each variant. */
  function SpeciesName(s: Species): string {
    match s
    case Elephant => "Elephant"
    case Shark => "Shark"
    case Buffalo => "Buffalo"
    case Godzilla => "Godzilla"
  }

  /** The diet each variant's constructor installs. */
  function DefaultDiet(s: Species): Diet {
    match s
    case Elephant => Diet(Vegetation, "Twice a day")
    case Shark => Diet(Meat, "Once a day")
    case Buffalo => Diet(Vegetation, "Three times a day")
    case Godzilla => Diet(Mixed, "One huge Lion a day")
  }

  /** An animal carries its species' default diet: the only way the program
      ever gives an animal its diet. */
  predicate Constructed(a: Animal) {
    a.diet == DefaultDiet(a.species)
  }

  /** Construction of a variant followed by its object initializer. */
  function NewAnimal(s: Species, name: string, age: int, weight: real, habitat: string): (a: Animal)
    ensures Constructed(a)
    ensures a.species == s && a.name == name && a.age == age
    ensures a.weight == weight && a.habitat == habitat
  {
    Animal(s, name, age, weight, habitat, DefaultDiet(s))
  }

  /** Reference table of the foods each variant's feeding rule lets through. */
  function AcceptedFoods(s: Species): set<FoodType> {
    match s
    case Elephant => {Vegetation}
    case Shark => {Meat}
    case Buffalo => AllFoods
    case Godzilla => AllFoods
  }

  /** Feeding an animal: Elephant and Shark refuse every category but their
      own; Buffalo and Godzilla eat whatever they are given. */
  function Eat(a: Animal, food: FoodType): (r: Outcome<FoodError>)
    ensures r.Pass? <==> food in AcceptedFoods(a.species)
    ensures r.Fail? ==> a.species == Elephant || a.species == Shark
    ensures r.Fail? && a.species == Elephant ==> r.error == InvalidFood("Elephant can only eat vegetation.")
    ensures r.Fail? && a.species == Shark ==> r.error == InvalidFood("Shark can only eat meat.")
  {
    match a.species
    case Elephant =>
      if food != Vegetation then Fail(InvalidFood("Elephant can only eat vegetation.")) else Pass
    case Shark =>
      if food != Meat then Fail(InvalidFood("Shark can only eat meat.")) else Pass
    case Buffalo => AllFoodsComplete(food); Pass
    case Godzilla => AllFoodsComplete(food); Pass
  }

  /** The capability interfaces each variant implements. */
  function Capabilities(s: Species): (c: set<Capability>)
    ensures Fly !in c
  {
    match s
    case Elephant => {Climb}
    case Shark => {Swim}
    case Buffalo => {}
    case Godzilla => {Climb, Swim}
  }

  lemma ElephantFeeding(a: Animal, food: FoodType)
    requires a.species == Elephant
    ensures Eat(a, food).Pass? <==> food == Vegetation
    ensures food == Meat || food == Mixed ==> Eat(a, food) == Fail(InvalidFood("Elephant can only eat vegetation."))
  {
  }

  lemma SharkFeeding(a: Animal, food: FoodType)
    requires a.species == Shark
    ensures Eat(a, food).Pass? <==> food == Meat
    ensures food == Vegetation || food == Mixed ==> Eat(a, food) == Fail(InvalidFood("Shark can only eat meat."))
  {
  }

  /** Buffalo and Godzilla never consult their diet: every category passes,
      including Meat for a Buffalo whose preferred food is Vegetation. */
  lemma UnenforcedFeeding(a: Animal, food: FoodType)
    requires a.species == Buffalo || a.species == Godzilla
    ensures Eat(a, food) == Pass
    ensures a.species == Buffalo && Constructed(a) ==> Eat(a, Meat) == Pass && a.diet.preferredFood != Meat
  {
  }

  /** For the two variants that enforce a diet, the enforced category is
      exactly the preferred food of their default diet. */
  lemma EnforcedDietIsPreferredFood(a: Animal, food: FoodType)
    requires Constructed(a)
    requires a.species == Elephant || a.species == Shark
    ensures Eat(a, food).Pass? <==> food == a.diet.preferredFood
  {
  }

  /** Feeding any animal its own preferred food never fails. */
  lemma PreferredFoodAccepted(a: Animal)
    requires Constructed(a)
    ensures Eat(a, a.diet.preferredFood) == Pass
  {
  }

  /** The feeding rule reads only the species, never the diet or the
      identity fields. */
  lemma EatDependsOnlyOnSpecies(a: Animal, b: Animal, food: FoodType)
    requires a.species == b.species
    ensures Eat(a, food) == Eat(b, food)
  {
  }

  /** Two instances of one variant carry equal diets. */
  lemma SameSpeciesSameDiet(a: Animal, b: Animal)
    requires Constructed(a) && Constructed(b)
    requires a.species == b.species
    ensures a.diet == b.diet
  {
  }

  /** The schedule text identifies the species. */
  lemma SchedulesDistinct(s: Species, t: Species)
    ensures DefaultDiet(s).feedingSchedule == DefaultDiet(t).feedingSchedule <==> s == t
  {
  }

  /** Elephant climbs, Shark swims, Godzilla does both, Buffalo neither. */
  lemma CapabilitySets(s: Species)
    ensures Climb in Capabilities(s) <==> s == Elephant || s == Godzilla
    ensures Swim in Capabilities(s) <==> s == Shark || s == Godzilla
    ensures Capabilities(s) == {} <==> s == Buffalo
  {
  }
}
