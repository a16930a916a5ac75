/** The goods-segregation predicate (`goodsConflict`) and the conflict keys beside it: which two
    SKUs may not share a bin, and by which rule. */
module GoodsRules {
  import opened Sequences

  datatype Profile = Profile(
    hazardClass: Option<string>, dgClass: Option<string>, subsidiaries: seq<string>,
    drugSchedules: seq<string>, foodCategory: Option<string>, allergens: seq<string>)

  predicate IsEmptyProfile(p: Profile) {
    && p.hazardClass.None? && p.dgClass.None? && p.subsidiaries == [] && p.drugSchedules == []
    && (p.foodCategory.None? || p.foodCategory == Some("non-food"))
  }

  // ---- hazard sets -------------------------------------------------------

  const HAZARD_CLASSES := ["explosive", "oxidizer", "flammable", "corrosive-acid", "corrosive-base", "toxic", "gas"]

  const INCOMPATIBLE_PAIRS :=
    {"flammable|oxidizer", "gas|oxidizer", "corrosive-acid|corrosive-base", "corrosive-acid|toxic"}

  function SortedPair(a: string, b: string): string {
    if LexLess(a, b) then a + "|" + b else b + "|" + a
  }

  predicate Compatible(a: string, b: string) {
    a != "explosive" && b != "explosive" && SortedPair(a, b) !in INCOMPATIBLE_PAIRS
  }

  lemma {:induction false} SortedPairIsSymmetric(a: string, b: string)
    ensures SortedPair(a, b) == SortedPair(b, a)
  {
    LexTrichotomy(a, b);
  }

  /** The hazard class a DG subsidiary class counts as, if any. */
  function DgHazard(dg: string): Option<string> {
    if dg in ["1.1", "1.2", "1.3", "1.4", "1.5", "1.6"] then Some("explosive")
    else if dg in ["2.1", "2.2", "2.3"] then Some("gas")
    else if dg == "3" then Some("flammable")
    else if dg == "5.1" then Some("oxidizer")
    else if dg == "6.1" then Some("toxic")
    else None
  }

  /** One member of a hazard set, and the subsidiary it came from (None: the class itself). */
  datatype Entry = Entry(hazardClass: string, viaSubsidiary: Option<string>)

  function ClassOf(e: Entry): string { e.hazardClass }

  function SortedSet(values: seq<string>): seq<string> { Sort(Distinct(values), LexLe) }

  /** The Map fill: the hazard class first, then each subsidiary whose class is not there yet. */
  function Collected(p: Profile, subsidiaries: seq<string>): seq<Entry> {
    if subsidiaries == [] then
      if p.hazardClass.Some? then [Entry(p.hazardClass.value, None)] else []
    else
      var entries := Collected(p, subsidiaries[..|subsidiaries| - 1]);
      var last := subsidiaries[|subsidiaries| - 1];
      var mapped := DgHazard(last);
      if mapped.Some? && mapped.value !in Map(entries, ClassOf) then entries + [Entry(mapped.value, Some(last))]
      else entries
  }

  function RankFrom(hazardClass: string, i: nat): nat
    requires i <= |HAZARD_CLASSES|
    decreases |HAZARD_CLASSES| - i
  {
    if i == |HAZARD_CLASSES| || HAZARD_CLASSES[i] == hazardClass then i else RankFrom(hazardClass, i + 1)
  }

  predicate RankedBefore(x: Entry, y: Entry) {
    var a, b := RankFrom(x.hazardClass, 0), RankFrom(y.hazardClass, 0);
    a < b || (a == b && LexLe(x.hazardClass, y.hazardClass))
  }

  function HazardSet(p: Profile): seq<Entry> { Sort(Collected(p, SortedSet(p.subsidiaries)), RankedBefore) }

  // ---- the rules ---------------------------------------------------------

  predicate IsFood(p: Profile) { p.foodCategory.Some? && p.foodCategory.value != "non-food" }

  predicate IsDrug(p: Profile) { p.drugSchedules != [] }

  predicate IsChemical(p: Profile) { (p.hazardClass.Some? || p.dgClass.Some?) && !IsFood(p) && !IsDrug(p) }

  predicate IsRaw(p: Profile) { p.foodCategory == Some("meat-poultry-seafood") }

  predicate IsReadyToEat(p: Profile) {
    && p.foodCategory.Some?
    && p.foodCategory.value in ["dairy", "ready-to-eat", "fresh-produce", "bakery-cereals", "infant-food"]
  }

  predicate HoldsExplosive(p: Profile) { "explosive" in Map(HazardSet(p), ClassOf) }

  predicate SameSet(a: seq<string>, b: seq<string>) { SortedSet(a) == SortedSet(b) }

  datatype Side = A | B

  /** A fired rule, with the facts oriented to the arguments. */
  datatype Conflict =
    | HazardPair(a: Entry, b: Entry)
    | ExplosiveDg(explosive: Side, dgClass: string)
    | FoodChemical(food: Side)
    | DrugChemical(drug: Side)
    | AllergenMismatch
    | RawReadyToEat(raw: Side)

  datatype Rule =
    | HazardPairRule
    | ExplosiveDgRule
    | FoodChemicalRule
    | DrugChemicalRule
    | AllergenMismatchRule
    | RawReadyToEatRule

  const NON_HAZARD_RULES :=
    [ExplosiveDgRule, FoodChemicalRule, DrugChemicalRule, AllergenMismatchRule, RawReadyToEatRule]

  function RuleOf(c: Conflict): Rule {
    match c
    case HazardPair(_, _) => HazardPairRule
    case ExplosiveDg(_, _) => ExplosiveDgRule
    case FoodChemical(_) => FoodChemicalRule
    case DrugChemical(_) => DrugChemicalRule
    case AllergenMismatch => AllergenMismatchRule
    case RawReadyToEat(_) => RawReadyToEatRule
  }

  /** Does a non-hazard rule fire between `a` and `b`? */
  function Fires(rule: Rule, a: Profile, b: Profile): Option<Conflict> {
    match rule
    case HazardPairRule => None
    case ExplosiveDgRule =>
      if HoldsExplosive(a) && b.dgClass.Some? then Some(ExplosiveDg(A, b.dgClass.value))
      else if HoldsExplosive(b) && a.dgClass.Some? then Some(ExplosiveDg(B, a.dgClass.value))
      else None
    case FoodChemicalRule =>
      if IsFood(a) && IsChemical(b) then Some(FoodChemical(A))
      else if IsFood(b) && IsChemical(a) then Some(FoodChemical(B))
      else None
    case DrugChemicalRule =>
      if IsDrug(a) && IsChemical(b) then Some(DrugChemical(A))
      else if IsDrug(b) && IsChemical(a) then Some(DrugChemical(B))
      else None
    case AllergenMismatchRule =>
      if IsFood(a) && IsFood(b) && !SameSet(a.allergens, b.allergens) then Some(AllergenMismatch) else None
    case RawReadyToEatRule =>
      if IsRaw(a) && IsReadyToEat(b) then Some(RawReadyToEat(A))
      else if IsRaw(b) && IsReadyToEat(a) then Some(RawReadyToEat(B))
      else None
  }

  /** The first incompatible pair not among the keys already had. */
  function FirstPairWith(x: Entry, ys: seq<Entry>, had: seq<string>): Option<Conflict> {
    if ys == [] then None
    else if !Compatible(x.hazardClass, ys[0].hazardClass) && PairKey(x, ys[0]) !in had then Some(HazardPair(x, ys[0]))
    else FirstPairWith(x, ys[1..], had)
  }

  function FirstPair(xs: seq<Entry>, ys: seq<Entry>, had: seq<string>): Option<Conflict> {
    if xs == [] then None
    else
      var found := FirstPairWith(xs[0], ys, had);
      if found.Some? then found else FirstPair(xs[1..], ys, had)
  }

  function FirstRule(rules: seq<Rule>, a: Profile, b: Profile, had: seq<string>): Option<Conflict> {
    if rules == [] then None
    else
      var found := Fires(rules[0], a, b);
      if found.Some? && RuleKey(rules[0]) !in had then found else FirstRule(rules[1..], a, b, had)
  }

  /** `goodsConflict`: the first rule that fires, in table order, the hazard pairs first. */
  function GoodsConflict(a: Profile, b: Profile): Option<Conflict> {
    if IsEmptyProfile(a) || IsEmptyProfile(b) then None
    else
      var pair := FirstPair(HazardSet(a), HazardSet(b), []);
      if pair.Some? then pair else FirstRule(NON_HAZARD_RULES, a, b, [])
  }

  // ---- the facts of a conflict -------------------------------------------

  /** What a message says of a conflict: each side's parenthetical, and the verdict on the pair. */
  datatype Facts = Facts(a: string, b: string, pairVerdict: string)

  function Listed(parts: seq<string>): string {
    if parts == [] then ""
    else if |parts| == 1 then parts[0]
    else Listed(parts[..|parts| - 1]) + ", " + parts[|parts| - 1]
  }

  function EntryLabel(e: Entry): string {
    match e.viaSubsidiary
    case None => e.hazardClass
    case Some(dg) => e.hazardClass + ", DG subsidiary " + dg
  }

  function ChemicalLabel(p: Profile): string {
    "chemical: " + Listed((if p.hazardClass.Some? then [p.hazardClass.value] else [])
                        + (if p.dgClass.Some? then ["DG " + p.dgClass.value] else []))
  }

  function Category(p: Profile, otherwise: string): string {
    if p.foodCategory.Some? then p.foodCategory.value else otherwise
  }

  function FoodLabel(p: Profile): string { "food: " + Category(p, "unknown") }

  function DrugLabel(p: Profile): string { "drug: schedule " + Listed(SortedSet(p.drugSchedules)) }

  function AllergenLabel(p: Profile): string {
    var allergens := SortedSet(p.allergens);
    Category(p, "food") + ", " + (if allergens == [] then "no allergens" else "allergens: " + Listed(allergens))
  }

  const FOOD_CHEMICAL := "must be kept apart: food never shares a bin with a chemical"
  const DRUG_CHEMICAL := "must be kept apart: a scheduled drug never shares a bin with a chemical"
  const EXPLOSIVE_DG := "must be kept apart: an explosive never shares a bin with a dangerous good"
  const ALLERGEN_MISMATCH := "must be kept apart: two foods share a bin only when they declare the same allergens"
  const RAW_READY_TO_EAT :=
    "must be kept apart: raw meat, poultry and seafood never share a bin with dairy, "
    + "ready-to-eat food, fresh produce, bakery and cereals, or infant food"

  /** The labels put on the sides they belong to. */
  function Sided(side: Side, mine: string, theirs: string, pairVerdict: string): Facts {
    if side == A then Facts(mine, theirs, pairVerdict) else Facts(theirs, mine, pairVerdict)
  }

  /** `conflictFacts`, without the sentence of the placement gates. */
  function ConflictFacts(c: Conflict, a: Profile, b: Profile): Facts {
    match c
    case HazardPair(x, y) => Facts(EntryLabel(x), EntryLabel(y), "are segregated from each other (FR-41)")
    case ExplosiveDg(side, dg) => Sided(side, "explosive", "DG " + dg, EXPLOSIVE_DG)
    case FoodChemical(side) =>
      Sided(side, FoodLabel(if side == A then a else b), ChemicalLabel(if side == A then b else a), FOOD_CHEMICAL)
    case DrugChemical(side) =>
      Sided(side, DrugLabel(if side == A then a else b), ChemicalLabel(if side == A then b else a), DRUG_CHEMICAL)
    case AllergenMismatch => Facts(AllergenLabel(a), AllergenLabel(b), ALLERGEN_MISMATCH)
    case RawReadyToEat(side) =>
      Sided(side, "meat-poultry-seafood", Category(if side == A then b else a, "food"), RAW_READY_TO_EAT)
  }

  // ---- conflict keys -----------------------------------------------------

  function PairKey(x: Entry, y: Entry): string { "hazard-pair:" + SortedPair(x.hazardClass, y.hazardClass) }

  function RuleKey(rule: Rule): string {
    match rule
    case HazardPairRule => "hazard-pair"
    case ExplosiveDgRule => "explosive-dg"
    case FoodChemicalRule => "food-chemical"
    case DrugChemicalRule => "drug-chemical"
    case AllergenMismatchRule => "allergen-mismatch"
    case RawReadyToEatRule => "raw-ready-to-eat"
  }

  function KeysWith(x: Entry): Entry -> seq<string> {
    (y: Entry) => if Compatible(x.hazardClass, y.hazardClass) then [] else [PairKey(x, y)]
  }

  function KeysAgainst(ys: seq<Entry>): Entry -> seq<string> { (x: Entry) => FlatMap(ys, KeysWith(x)) }

  function RuleKeys(a: Profile, b: Profile): Rule -> seq<string> {
    (rule: Rule) => if Fires(rule, a, b).Some? then [RuleKey(rule)] else []
  }

  function AllKeys(a: Profile, b: Profile): seq<string> {
    FlatMap(HazardSet(a), KeysAgainst(HazardSet(b))) + FlatMap(NON_HAZARD_RULES, RuleKeys(a, b))
  }

  /** `conflictKeys`: every conflict between the two, as a sorted list of keys. */
  function ConflictKeys(a: Profile, b: Profile): seq<string> {
    if IsEmptyProfile(a) || IsEmptyProfile(b) then [] else SortedSet(AllKeys(a, b))
  }

  /** `newGoodsConflict`: the first conflict of `next` with `b` whose key `stored` did not have. */
  function NewGoodsConflict(next: Profile, stored: Profile, b: Profile): Option<Conflict> {
    if IsEmptyProfile(next) || IsEmptyProfile(b) then None
    else
      var had := ConflictKeys(stored, b);
      var pair := FirstPair(HazardSet(next), HazardSet(b), had);
      if pair.Some? then pair else FirstRule(NON_HAZARD_RULES, next, b, had)
  }

  // ---- what the searches find --------------------------------------------

  lemma {:induction false} SortedSetMembers(values: seq<string>)
    ensures forall x :: x in SortedSet(values) <==> x in values
    ensures Ordered(SortedSet(values), LexLe)
  {
    LexIsTotalOrder();
    SortOrders(Distinct(values), LexLe);
    SortPermutes(Distinct(values), LexLe);
  }

  /** Sorted sets are equal exactly when they hold the same values. */
  lemma {:induction false} SortedSetIsASet(a: seq<string>, b: seq<string>)
    ensures SameSet(a, b) <==> forall x :: x in a <==> x in b
  {
    SortedSetMembers(a);
    SortedSetMembers(b);
    if forall x :: x in a <==> x in b {
      SameMembersSameBag(Distinct(a), Distinct(b));
      SortPermutes(Distinct(a), LexLe);
      SortPermutes(Distinct(b), LexLe);
      forall x, y | LexLe(x, y) && LexLe(y, x) ensures x == y { LexTrichotomy(x, y); }
      OrderedIsUnique(SortedSet(a), SortedSet(b), LexLe);
    }
  }

  /** The pair search succeeds exactly when some pair's key is new. */
  lemma {:induction false} FirstPairWithFinds(x: Entry, ys: seq<Entry>, had: seq<string>)
    ensures FirstPairWith(x, ys, had).None? <==> forall k :: k in FlatMap(ys, KeysWith(x)) ==> k in had
    ensures FirstPairWith(x, ys, had).Some? ==> RuleOf(FirstPairWith(x, ys, had).value) == HazardPairRule
    decreases |ys|
  {
    if ys != [] {
      FirstPairWithFinds(x, ys[1..], had);
      FlatMapHead(ys, KeysWith(x));
    }
  }

  lemma {:induction false} FirstPairFinds(xs: seq<Entry>, ys: seq<Entry>, had: seq<string>)
    ensures FirstPair(xs, ys, had).None? <==> forall k :: k in FlatMap(xs, KeysAgainst(ys)) ==> k in had
    ensures FirstPair(xs, ys, had).Some? ==> RuleOf(FirstPair(xs, ys, had).value) == HazardPairRule
    decreases |xs|
  {
    if xs != [] {
      FirstPairWithFinds(xs[0], ys, had);
      FirstPairFinds(xs[1..], ys, had);
      FlatMapHead(xs, KeysAgainst(ys));
    }
  }

  lemma {:induction false} FirstRuleFinds(rules: seq<Rule>, a: Profile, b: Profile, had: seq<string>)
    ensures FirstRule(rules, a, b, had).None? <==> forall k :: k in FlatMap(rules, RuleKeys(a, b)) ==> k in had
    decreases |rules|
  {
    if rules != [] {
      FirstRuleFinds(rules[1..], a, b, had);
      FlatMapHead(rules, RuleKeys(a, b));
    }
  }

  /** The edit guard is exact: it names a new conflict if and only if some key of the edited
      SKU was not among the stored ones. */
  lemma {:induction false} NewConflictIsExact(next: Profile, stored: Profile, b: Profile)
    ensures NewGoodsConflict(next, stored, b).None? <==>
            forall k :: k in ConflictKeys(next, b) ==> k in ConflictKeys(stored, b)
  {
    if !IsEmptyProfile(next) && !IsEmptyProfile(b) {
      var had := ConflictKeys(stored, b);
      FirstPairFinds(HazardSet(next), HazardSet(b), had);
      FirstRuleFinds(NON_HAZARD_RULES, next, b, had);
      SortedSetMembers(AllKeys(next, b));
    }
  }

  /** A conflict is reported if and only if there is a conflict key. */
  lemma {:induction false} ConflictMeansKeys(a: Profile, b: Profile)
    ensures GoodsConflict(a, b).None? <==> ConflictKeys(a, b) == []
  {
    if !IsEmptyProfile(a) && !IsEmptyProfile(b) {
      FirstPairFinds(HazardSet(a), HazardSet(b), []);
      FirstRuleFinds(NON_HAZARD_RULES, a, b, []);
      SortedSetMembers(AllKeys(a, b));
      assert ConflictKeys(a, b) != [] ==> ConflictKeys(a, b)[0] in AllKeys(a, b);
    }
  }

  // ---- symmetry ----------------------------------------------------------

  lemma {:induction false} PairKeysAreSymmetric(xs: seq<Entry>, ys: seq<Entry>, k: string)
    requires k in FlatMap(xs, KeysAgainst(ys))
    ensures k in FlatMap(ys, KeysAgainst(xs))
  {
    FlatMapMember(xs, KeysAgainst(ys), k);
    var x :| x in xs && k in KeysAgainst(ys)(x);
    FlatMapMember(ys, KeysWith(x), k);
    var y :| y in ys && k in KeysWith(x)(y);
    SortedPairIsSymmetric(x.hazardClass, y.hazardClass);
    assert k in KeysWith(y)(x);
    FlatMapMember(xs, KeysWith(y), k);
    assert k in KeysAgainst(xs)(y);
    FlatMapMember(ys, KeysAgainst(xs), k);
  }

  lemma {:induction false} FiresIsSymmetric(rule: Rule, a: Profile, b: Profile)
    ensures Fires(rule, a, b).Some? <==> Fires(rule, b, a).Some?
    ensures Fires(rule, a, b).Some? ==> RuleOf(Fires(rule, a, b).value) == rule
  {
  }

  lemma {:induction false} FirstRuleIsSymmetric(rules: seq<Rule>, a: Profile, b: Profile)
    ensures FirstRule(rules, a, b, []).Some? <==> FirstRule(rules, b, a, []).Some?
    ensures FirstRule(rules, a, b, []).Some? ==>
              RuleOf(FirstRule(rules, a, b, []).value) == RuleOf(FirstRule(rules, b, a, []).value)
    decreases |rules|
  {
    if rules != [] {
      FiresIsSymmetric(rules[0], a, b);
      FiresIsSymmetric(rules[0], b, a);
      FirstRuleIsSymmetric(rules[1..], a, b);
    }
  }

  /** The same rule fires in either argument order. */
  lemma {:induction false} ConflictIsSymmetric(a: Profile, b: Profile)
    ensures GoodsConflict(a, b).Some? <==> GoodsConflict(b, a).Some?
    ensures GoodsConflict(a, b).Some? ==> RuleOf(GoodsConflict(a, b).value) == RuleOf(GoodsConflict(b, a).value)
  {
    var xs, ys := HazardSet(a), HazardSet(b);
    FirstPairFinds(xs, ys, []);
    FirstPairFinds(ys, xs, []);
    forall k | k in FlatMap(xs, KeysAgainst(ys))
      ensures k in FlatMap(ys, KeysAgainst(xs))
    {
      PairKeysAreSymmetric(xs, ys, k);
    }
    forall k | k in FlatMap(ys, KeysAgainst(xs))
      ensures k in FlatMap(xs, KeysAgainst(ys))
    {
      PairKeysAreSymmetric(ys, xs, k);
    }
    FirstRuleIsSymmetric(NON_HAZARD_RULES, a, b);
  }

  lemma {:induction false} RuleKeysAreSymmetric(rules: seq<Rule>, a: Profile, b: Profile)
    ensures FlatMap(rules, RuleKeys(a, b)) == FlatMap(rules, RuleKeys(b, a))
  {
    if rules != [] {
      RuleKeysAreSymmetric(rules[..|rules| - 1], a, b);
      FiresIsSymmetric(rules[|rules| - 1], a, b);
    }
  }

  /** The whole key list is the same in either order. */
  lemma {:induction false} ConflictKeysAreSymmetric(a: Profile, b: Profile)
    ensures ConflictKeys(a, b) == ConflictKeys(b, a)
  {
    var xs, ys := HazardSet(a), HazardSet(b);
    forall k ensures k in AllKeys(a, b) <==> k in AllKeys(b, a) {
      RuleKeysAreSymmetric(NON_HAZARD_RULES, a, b);
      if k in FlatMap(xs, KeysAgainst(ys)) { PairKeysAreSymmetric(xs, ys, k); }
      if k in FlatMap(ys, KeysAgainst(xs)) { PairKeysAreSymmetric(ys, xs, k); }
    }
    SortedSetIsASet(AllKeys(a, b), AllKeys(b, a));
  }

  // ---- the rules as they are served ----------------------------------------
  //
  // The six rules once more, from the sentences the segregation matrix serves to its readers:
  // on the profile fields alone, with no table, no order of search and no sorted list.

  /** The DG class counts as hazard class `c`. */
  predicate Derives(dg: string, c: string) {
    || (c == "explosive" && |dg| == 3 && dg[0] == '1' && dg[1] == '.' && '1' <= dg[2] <= '6')
    || (c == "gas" && |dg| == 3 && dg[0] == '2' && dg[1] == '.' && '1' <= dg[2] <= '3')
    || (c == "flammable" && dg == "3")
    || (c == "oxidizer" && dg == "5.1")
    || (c == "toxic" && dg == "6.1")
  }

  /** By its own class or by a DG subsidiary risk, which counts like a primary class. */
  ghost predicate Carries(p: Profile, c: string) {
    p.hazardClass == Some(c) || exists dg :: dg in p.subsidiaries && Derives(dg, c)
  }

  predicate OneEach(x: string, y: string, u: string, v: string) { (x == u && y == v) || (x == v && y == u) }

  /** An explosive reacts with every class; four pairs of other classes react. */
  predicate React(x: string, y: string) {
    || x == "explosive" || y == "explosive"
    || OneEach(x, y, "flammable", "oxidizer") || OneEach(x, y, "gas", "oxidizer")
    || OneEach(x, y, "corrosive-acid", "corrosive-base") || OneEach(x, y, "corrosive-acid", "toxic")
  }

  /** Hazard classes that react never share a bin. */
  ghost predicate ClassesReact(a: Profile, b: Profile) {
    exists x, y :: Carries(a, x) && Carries(b, y) && React(x, y)
  }

  /** An explosive never shares a bin with any dangerous good. */
  ghost predicate ExplosiveMeetsDg(a: Profile, b: Profile) { Carries(a, "explosive") && b.dgClass != None }

  predicate Edible(p: Profile) { p.foodCategory != None && p.foodCategory != Some("non-food") }

  /** Any SKU with a hazard class or a DG class that is not itself a food or a drug. */
  predicate PlainChemical(p: Profile) {
    (p.hazardClass != None || p.dgClass != None) && !Edible(p) && p.drugSchedules == []
  }

  predicate FoodMeetsChemical(a: Profile, b: Profile) { Edible(a) && PlainChemical(b) }

  predicate DrugMeetsChemical(a: Profile, b: Profile) { |a.drugSchedules| > 0 && PlainChemical(b) }

  /** Two foods share a bin only when they declare the same allergens. */
  ghost predicate AllergensDiffer(a: Profile, b: Profile) {
    Edible(a) && Edible(b) && exists x :: (x in a.allergens) != (x in b.allergens)
  }

  predicate RawMeetsReady(a: Profile, b: Profile) {
    && a.foodCategory == Some("meat-poultry-seafood")
    && (b.foodCategory == Some("dairy") || b.foodCategory == Some("ready-to-eat")
        || b.foodCategory == Some("fresh-produce") || b.foodCategory == Some("bakery-cereals")
        || b.foodCategory == Some("infant-food"))
  }

  /** The rule is broken between the two, whichever is which. */
  ghost predicate Breaks(rule: Rule, a: Profile, b: Profile) {
    match rule
    case HazardPairRule => ClassesReact(a, b)
    case ExplosiveDgRule => ExplosiveMeetsDg(a, b) || ExplosiveMeetsDg(b, a)
    case FoodChemicalRule => FoodMeetsChemical(a, b) || FoodMeetsChemical(b, a)
    case DrugChemicalRule => DrugMeetsChemical(a, b) || DrugMeetsChemical(b, a)
    case AllergenMismatchRule => AllergensDiffer(a, b)
    case RawReadyToEatRule => RawMeetsReady(a, b) || RawMeetsReady(b, a)
  }

  /** The first broken rule in the served order. */
  ghost function ByTheBook(a: Profile, b: Profile): Option<Rule> {
    if Breaks(HazardPairRule, a, b) then Some(HazardPairRule)
    else if Breaks(ExplosiveDgRule, a, b) then Some(ExplosiveDgRule)
    else if Breaks(FoodChemicalRule, a, b) then Some(FoodChemicalRule)
    else if Breaks(DrugChemicalRule, a, b) then Some(DrugChemicalRule)
    else if Breaks(AllergenMismatchRule, a, b) then Some(AllergenMismatchRule)
    else if Breaks(RawReadyToEatRule, a, b) then Some(RawReadyToEatRule)
    else None
  }

  lemma {:induction false} DgHazardDerives(dg: string, c: string)
    ensures DgHazard(dg) == Some(c) <==> Derives(dg, c)
  {
    if |dg| == 3 { assert dg == [dg[0], dg[1], dg[2]]; }
  }

  lemma {:induction false} BarSplits(a: string, b: string, x: string, y: string)
    requires '|' !in x && '|' !in y && a + "|" + b == x + "|" + y
    ensures a == x && b == y
  {
    var whole := a + "|" + b;
    assert whole[|a|] == '|' && whole[|x|] == '|';
    assert |a| == |x|;
    assert a == whole[..|a|] && x == whole[..|x|];
    assert b == whole[|a| + 1..] && y == whole[|x| + 1..];
  }

  /** `text` is the sorted key of two words. */
  ghost predicate Words(u: string, v: string, text: string) {
    LexLess(u, v) && '|' !in u && '|' !in v && text == u + "|" + v
  }

  lemma {:induction false} SortedPairIs(x: string, y: string, u: string, v: string, text: string)
    requires Words(u, v, text)
    ensures SortedPair(x, y) == text <==> OneEach(x, y, u, v)
  {
    LexTrichotomy(u, v);
    if LexLess(x, y) {
      if x + "|" + y == u + "|" + v { BarSplits(x, y, u, v); }
    } else {
      if y + "|" + x == u + "|" + v { BarSplits(y, x, u, v); }
    }
  }

  lemma {:induction false} OxidizerPairs(x: string, y: string)
    ensures SortedPair(x, y) == "flammable|oxidizer" <==> OneEach(x, y, "flammable", "oxidizer")
    ensures SortedPair(x, y) == "gas|oxidizer" <==> OneEach(x, y, "gas", "oxidizer")
  {
    SortedPairIs(x, y, "flammable", "oxidizer", "flammable|oxidizer");
    SortedPairIs(x, y, "gas", "oxidizer", "gas|oxidizer");
  }

  lemma {:induction false} AcidBeforeBase(u: string, v: string)
    requires u == "corrosive-acid" && v == "corrosive-base"
    ensures LexLess(u, v)
  {
    assert u[..10] == "corrosive-" && v[..10] == "corrosive-";
    LexFromDifference(u, v, 10);
  }

  lemma {:induction false} AcidBaseText(u: string, v: string, text: string)
    requires u == "corrosive-acid" && v == "corrosive-base" && text == "corrosive-acid|corrosive-base"
    ensures text == u + "|" + v
  {
    assert text[..14] == u;
    assert text[14..15] == "|";
    assert text[15..] == v;
    assert text == text[..14] + text[14..15] + text[15..];
  }

  lemma {:induction false} AcidBaseBars(u: string, v: string)
    requires u == "corrosive-acid" && v == "corrosive-base"
    ensures '|' !in u && '|' !in v
  {
  }

  lemma {:induction false} AcidBasePair(x: string, y: string)
    ensures SortedPair(x, y) == "corrosive-acid|corrosive-base" <==> OneEach(x, y, "corrosive-acid", "corrosive-base")
  {
    var u, v, text := "corrosive-acid", "corrosive-base", "corrosive-acid|corrosive-base";
    AcidBeforeBase(u, v);
    AcidBaseText(u, v, text);
    AcidBaseBars(u, v);
    SortedPairIs(x, y, u, v, text);
  }

  lemma {:induction false} AcidToxicPair(x: string, y: string)
    ensures SortedPair(x, y) == "corrosive-acid|toxic" <==> OneEach(x, y, "corrosive-acid", "toxic")
  {
    SortedPairIs(x, y, "corrosive-acid", "toxic", "corrosive-acid|toxic");
  }

  lemma {:induction false} IncompatibleReact(x: string, y: string)
    ensures !Compatible(x, y) <==> React(x, y)
  {
    OxidizerPairs(x, y);
    AcidBasePair(x, y);
    AcidToxicPair(x, y);
  }

  /** The hazard set holds exactly the classes the profile carries. */
  lemma {:induction false} HazardSetIsCarried(p: Profile, c: string)
    ensures (exists x :: x in HazardSet(p) && x.hazardClass == c) <==> Carries(p, c)
  {
    var subs := SortedSet(p.subsidiaries);
    SortPermutes(Collected(p, subs), RankedBefore);
    CollectedIsCarried(p, subs, c);
    SortedSetMembers(p.subsidiaries);
  }

  lemma {:induction false} CollectedIsCarried(p: Profile, subs: seq<string>, c: string)
    ensures (exists x :: x in Collected(p, subs) && x.hazardClass == c) <==>
            p.hazardClass == Some(c) || exists dg :: dg in subs && Derives(dg, c)
  {
    if subs != [] {
      var front, last := subs[..|subs| - 1], subs[|subs| - 1];
      CollectedIsCarried(p, front, c);
      FrontAndLast(subs);
      DgHazardDerives(last, c);
      CollectedSnoc(p, subs, c);
    } else if p.hazardClass.Some? {
      assert Entry(p.hazardClass.value, None) in Collected(p, subs);
    }
  }

  lemma {:induction false} CollectedSnoc(p: Profile, subs: seq<string>, c: string)
    requires subs != []
    ensures (exists x :: x in Collected(p, subs) && x.hazardClass == c) <==>
            || (exists x :: x in Collected(p, subs[..|subs| - 1]) && x.hazardClass == c)
            || DgHazard(subs[|subs| - 1]) == Some(c)
  {
    var front, last := subs[..|subs| - 1], subs[|subs| - 1];
    var entries, mapped := Collected(p, front), DgHazard(last);
    if mapped.Some? && mapped.value in Map(entries, ClassOf) {
      var i :| 0 <= i < |entries| && Map(entries, ClassOf)[i] == mapped.value;
      assert entries[i] in entries && entries[i].hazardClass == mapped.value;
    }
    if mapped.Some? { assert Entry(mapped.value, Some(last)).hazardClass == mapped.value; }
  }

  lemma {:induction false} PairMeansReact(a: Profile, b: Profile, had: seq<string>)
    ensures FirstPair(HazardSet(a), HazardSet(b), had).Some? <==> StillBreaks(HazardPairRule, a, b, had)
  {
    HazardSetIsOrdered(a);
    HazardSetIsOrdered(b);
    if FirstPair(HazardSet(a), HazardSet(b), had).Some? {
      PairFoundIsFirst(a, b, had);
      var c := FirstPair(HazardSet(a), HazardSet(b), had).value;
      assert NewPair(c.a.hazardClass, c.b.hazardClass, a, b, had);
    }
    if x, y :| NewPair(x, y, a, b, had) { OtherPairIsLater(a, b, had, x, y); }
  }

  lemma {:induction false} HoldsExplosiveMeans(p: Profile)
    ensures HoldsExplosive(p) <==> Carries(p, "explosive")
  {
    var entries := HazardSet(p);
    HazardSetIsCarried(p, "explosive");
    if HoldsExplosive(p) {
      var i :| 0 <= i < |entries| && Map(entries, ClassOf)[i] == "explosive";
      assert entries[i] in entries;
    }
    if x :| x in entries && x.hazardClass == "explosive" {
      var i :| 0 <= i < |entries| && entries[i] == x;
      assert Map(entries, ClassOf)[i] == "explosive";
    }
  }

  lemma {:induction false} SameSetMeans(a: seq<string>, b: seq<string>)
    ensures !SameSet(a, b) <==> exists x :: (x in a) != (x in b)
  {
    SortedSetIsASet(a, b);
  }

  /** Each rule fires exactly when it is broken. */
  lemma {:induction false} FiresWhenBroken(rule: Rule, a: Profile, b: Profile)
    requires rule != HazardPairRule
    ensures Fires(rule, a, b).Some? <==> Breaks(rule, a, b)
    ensures Fires(rule, a, b).Some? ==> RuleOf(Fires(rule, a, b).value) == rule
  {
    match rule
    case ExplosiveDgRule =>
      HoldsExplosiveMeans(a);
      HoldsExplosiveMeans(b);
    case AllergenMismatchRule => SameSetMeans(a.allergens, b.allergens);
    case RawReadyToEatRule =>
      ReadyMeans(a);
      ReadyMeans(b);
    case _ =>
  }

  lemma {:induction false} ReadyMeans(p: Profile)
    ensures IsReadyToEat(p) <==>
            || p.foodCategory == Some("dairy") || p.foodCategory == Some("ready-to-eat")
            || p.foodCategory == Some("fresh-produce") || p.foodCategory == Some("bakery-cereals")
            || p.foodCategory == Some("infant-food")
  {
  }

  lemma {:induction false} EmptyBreaksNothing(rule: Rule, a: Profile, b: Profile)
    requires IsEmptyProfile(a) || IsEmptyProfile(b)
    ensures !Breaks(rule, a, b)
  {
  }

  /** The rule is broken, and under a key that is not among those had. */
  ghost predicate StillBreaks(rule: Rule, a: Profile, b: Profile, had: seq<string>) {
    if rule == HazardPairRule then exists x, y :: NewPair(x, y, a, b, had)
    else Breaks(rule, a, b) && RuleKey(rule) !in had
  }

  ghost predicate NewPair(x: string, y: string, a: Profile, b: Profile, had: seq<string>) {
    Carries(a, x) && Carries(b, y) && React(x, y) && "hazard-pair:" + InOrder(x, y) !in had
  }

  /** The first such rule in the served order. */
  ghost function FirstStillBroken(a: Profile, b: Profile, had: seq<string>): Option<Rule> {
    if StillBreaks(HazardPairRule, a, b, had) then Some(HazardPairRule)
    else if StillBreaks(ExplosiveDgRule, a, b, had) then Some(ExplosiveDgRule)
    else if StillBreaks(FoodChemicalRule, a, b, had) then Some(FoodChemicalRule)
    else if StillBreaks(DrugChemicalRule, a, b, had) then Some(DrugChemicalRule)
    else if StillBreaks(AllergenMismatchRule, a, b, had) then Some(AllergenMismatchRule)
    else if StillBreaks(RawReadyToEatRule, a, b, had) then Some(RawReadyToEatRule)
    else None
  }

  ghost predicate IsFirstBroken(rules: seq<Rule>, a: Profile, b: Profile, had: seq<string>, r: Option<Conflict>) {
    match r
    case None => forall rule :: rule in rules ==> !StillBreaks(rule, a, b, had)
    case Some(c) =>
      exists k :: 0 <= k < |rules| && rules[k] == RuleOf(c) && StillBreaks(rules[k], a, b, had)
                  && forall j :: 0 <= j < k ==> !StillBreaks(rules[j], a, b, had)
  }

  lemma {:induction false} FirstRuleIsFirstBroken(rules: seq<Rule>, a: Profile, b: Profile, had: seq<string>)
    requires HazardPairRule !in rules
    ensures IsFirstBroken(rules, a, b, had, FirstRule(rules, a, b, had))
    decreases |rules|
  {
    if rules != [] {
      var rest, r := rules[1..], FirstRule(rules[1..], a, b, had);
      assert rules == [rules[0]] + rest && rules[0] in rules;
      FiresWhenBroken(rules[0], a, b);
      FirstRuleIsFirstBroken(rest, a, b, had);
      if !StillBreaks(rules[0], a, b, had) && r.Some? {
        var k :| 0 <= k < |rest| && rest[k] == RuleOf(r.value) && StillBreaks(rest[k], a, b, had)
                 && forall j :: 0 <= j < k ==> !StillBreaks(rest[j], a, b, had);
        assert rules[k + 1] == rest[k];
        forall j | 0 <= j < k + 1 ensures !StillBreaks(rules[j], a, b, had) {
          if j > 0 { assert rules[j] == rest[j - 1]; }
        }
      }
    }
  }

  function RuleFound(r: Option<Conflict>): Option<Rule> { if r.None? then None else Some(RuleOf(r.value)) }

  lemma {:induction false} FirstOfFive(rules: seq<Rule>, a: Profile, b: Profile, had: seq<string>, r: Option<Conflict>)
    requires rules == [ExplosiveDgRule, FoodChemicalRule, DrugChemicalRule, AllergenMismatchRule, RawReadyToEatRule]
    requires IsFirstBroken(rules, a, b, had, r) && !StillBreaks(HazardPairRule, a, b, had)
    ensures FirstStillBroken(a, b, had) == RuleFound(r)
  {
    assert rules[0] == ExplosiveDgRule && rules[1] == FoodChemicalRule && rules[2] == DrugChemicalRule;
    assert rules[3] == AllergenMismatchRule && rules[4] == RawReadyToEatRule;
    if r.None? {
      forall k | 0 <= k < 5 ensures !StillBreaks(rules[k], a, b, had) { assert rules[k] in rules; }
    }
  }

  lemma {:induction false} OthersByTheBook(rules: seq<Rule>, a: Profile, b: Profile, had: seq<string>)
    requires rules == NON_HAZARD_RULES && !StillBreaks(HazardPairRule, a, b, had)
    ensures FirstStillBroken(a, b, had) == RuleFound(FirstRule(rules, a, b, had))
  {
    assert HazardPairRule !in rules;
    FirstRuleIsFirstBroken(rules, a, b, had);
    FirstOfFive(rules, a, b, had, FirstRule(rules, a, b, had));
  }

  lemma {:induction false} SearchIsByTheBook(a: Profile, b: Profile, had: seq<string>)
    ensures var pair := FirstPair(HazardSet(a), HazardSet(b), had);
            RuleFound(if pair.Some? then pair else FirstRule(NON_HAZARD_RULES, a, b, had)) ==
            FirstStillBroken(a, b, had)
  {
    PairMeansReact(a, b, had);
    FirstPairFinds(HazardSet(a), HazardSet(b), had);
    if !StillBreaks(HazardPairRule, a, b, had) { OthersByTheBook(NON_HAZARD_RULES, a, b, had); }
  }

  lemma {:induction false} EmptyStillBreaksNothing(a: Profile, b: Profile, had: seq<string>)
    requires IsEmptyProfile(a) || IsEmptyProfile(b)
    ensures FirstStillBroken(a, b, had) == None
  {
    forall rule ensures !Breaks(rule, a, b) { EmptyBreaksNothing(rule, a, b); }
    assert !ClassesReact(a, b) by { EmptyBreaksNothing(HazardPairRule, a, b); }
  }

  lemma {:induction false} NothingHad(a: Profile, b: Profile)
    ensures FirstStillBroken(a, b, []) == ByTheBook(a, b)
  {
    if x, y :| Carries(a, x) && Carries(b, y) && React(x, y) { assert NewPair(x, y, a, b, []); }
    assert StillBreaks(HazardPairRule, a, b, []) <==> ClassesReact(a, b);
  }

  /** `goodsConflict` goes by the book: it reports the first broken rule in the served order, and
      nothing exactly when none is broken. */
  lemma {:induction false} ConflictIsByTheBook(a: Profile, b: Profile)
    ensures RuleFound(GoodsConflict(a, b)) == ByTheBook(a, b)
  {
    NothingHad(a, b);
    if IsEmptyProfile(a) || IsEmptyProfile(b) {
      EmptyStillBreaksNothing(a, b, []);
    } else {
      SearchIsByTheBook(a, b, []);
    }
  }

  /** An edit is refused for the first rule that the edited SKU breaks under a key the stored one
      did not have, and goes through exactly when there is none. */
  lemma {:induction false} NewConflictIsByTheBook(next: Profile, stored: Profile, b: Profile)
    ensures RuleFound(NewGoodsConflict(next, stored, b)) == FirstStillBroken(next, b, ConflictKeys(stored, b))
  {
    if IsEmptyProfile(next) || IsEmptyProfile(b) {
      EmptyStillBreaksNothing(next, b, ConflictKeys(stored, b));
    } else {
      SearchIsByTheBook(next, b, ConflictKeys(stored, b));
    }
  }

  /** So two plain foods conflict if and only if some allergen is declared by one and not by the
      other. */
  lemma {:induction false} PlainFoodsConflictByAllergens(a: Profile, b: Profile)
    requires PlainFood(a) && PlainFood(b)
    ensures GoodsConflict(a, b).Some? <==> exists x :: (x in a.allergens) != (x in b.allergens)
  {
    ConflictIsByTheBook(a, b);
  }

  /** A food, neither raw nor ready to eat, with no hazard class, no DG class, no subsidiary risk
      and no drug schedule. */
  predicate PlainFood(p: Profile) {
    && p.hazardClass == None && p.dgClass == None && p.subsidiaries == [] && p.drugSchedules == []
    && p.foodCategory != None
    && p.foodCategory.value !in ["non-food", "meat-poultry-seafood", "dairy", "ready-to-eat", "fresh-produce",
                                 "bakery-cereals", "infant-food"]
  }

  // ---- the keys, and the conflict an edit is refused for ---------------------

  /** The two classes in alphabetical order. */
  function InOrder(x: string, y: string): string { if LexLess(x, y) then x + "|" + y else y + "|" + x }

  ghost predicate ReactKey(a: Profile, b: Profile, k: string) {
    exists x, y :: Carries(a, x) && Carries(b, y) && React(x, y) && k == "hazard-pair:" + InOrder(x, y)
  }

  /** The keys by the book: one for each pair of carried classes that react, in alphabetical
      order, and one for each other broken rule. */
  ghost predicate KeyByTheBook(a: Profile, b: Profile, k: string) {
    || ReactKey(a, b, k)
    || (k == "explosive-dg" && Breaks(ExplosiveDgRule, a, b))
    || (k == "food-chemical" && Breaks(FoodChemicalRule, a, b))
    || (k == "drug-chemical" && Breaks(DrugChemicalRule, a, b))
    || (k == "allergen-mismatch" && Breaks(AllergenMismatchRule, a, b))
    || (k == "raw-ready-to-eat" && Breaks(RawReadyToEatRule, a, b))
  }

  lemma {:induction false} PairKeyIsByTheBook(a: Profile, b: Profile, k: string)
    requires k in FlatMap(HazardSet(a), KeysAgainst(HazardSet(b)))
    ensures ReactKey(a, b, k)
  {
    var xs, ys := HazardSet(a), HazardSet(b);
    FlatMapMember(xs, KeysAgainst(ys), k);
    var x :| x in xs && k in KeysAgainst(ys)(x);
    FlatMapMember(ys, KeysWith(x), k);
    var y :| y in ys && k in KeysWith(x)(y);
    IncompatibleReact(x.hazardClass, y.hazardClass);
    HazardSetIsCarried(a, x.hazardClass);
    HazardSetIsCarried(b, y.hazardClass);
  }

  lemma {:induction false} PairInTheBookIsKey(a: Profile, b: Profile, c: string, d: string)
    requires Carries(a, c) && Carries(b, d) && React(c, d)
    ensures "hazard-pair:" + InOrder(c, d) in FlatMap(HazardSet(a), KeysAgainst(HazardSet(b)))
  {
    var xs, ys, k := HazardSet(a), HazardSet(b), "hazard-pair:" + InOrder(c, d);
    HazardSetIsCarried(a, c);
    HazardSetIsCarried(b, d);
    var x :| x in xs && x.hazardClass == c;
    var y :| y in ys && y.hazardClass == d;
    IncompatibleReact(c, d);
    assert k in KeysWith(x)(y);
    FlatMapMember(ys, KeysWith(x), k);
    assert k in KeysAgainst(ys)(x);
    FlatMapMember(xs, KeysAgainst(ys), k);
  }

  lemma {:induction false} RuleKeyByTheBook(rule: Rule, a: Profile, b: Profile, k: string)
    requires rule != HazardPairRule
    ensures k in RuleKeys(a, b)(rule) <==> k == RuleKey(rule) && Breaks(rule, a, b)
  {
    FiresWhenBroken(rule, a, b);
  }

  lemma {:induction false} RuleKeysByTheBook(a: Profile, b: Profile, k: string)
    ensures k in FlatMap(NON_HAZARD_RULES, RuleKeys(a, b)) <==>
            exists rule :: rule in NON_HAZARD_RULES && k == RuleKey(rule) && Breaks(rule, a, b)
  {
    FlatMapMember(NON_HAZARD_RULES, RuleKeys(a, b), k);
    forall rule | rule in NON_HAZARD_RULES
      ensures k in RuleKeys(a, b)(rule) <==> k == RuleKey(rule) && Breaks(rule, a, b)
    {
      RuleKeyByTheBook(rule, a, b, k);
    }
  }

  lemma {:induction false} SomeKey(a: Profile, b: Profile, k: string)
    ensures (exists rule :: rule in NON_HAZARD_RULES && k == RuleKey(rule) && Breaks(rule, a, b)) <==>
            || (k == "explosive-dg" && Breaks(ExplosiveDgRule, a, b))
            || (k == "food-chemical" && Breaks(FoodChemicalRule, a, b))
            || (k == "drug-chemical" && Breaks(DrugChemicalRule, a, b))
            || (k == "allergen-mismatch" && Breaks(AllergenMismatchRule, a, b))
            || (k == "raw-ready-to-eat" && Breaks(RawReadyToEatRule, a, b))
  {
    var rules := NON_HAZARD_RULES;
    assert rules[0] == ExplosiveDgRule && rules[1] == FoodChemicalRule && rules[2] == DrugChemicalRule;
    assert rules[3] == AllergenMismatchRule && rules[4] == RawReadyToEatRule;
  }

  /** `conflictKeys` lists exactly the keys by the book. */
  lemma {:induction false} KeysAreByTheBook(a: Profile, b: Profile, k: string)
    ensures k in ConflictKeys(a, b) <==> KeyByTheBook(a, b, k)
  {
    if IsEmptyProfile(a) || IsEmptyProfile(b) {
      forall rule ensures !Breaks(rule, a, b) { EmptyBreaksNothing(rule, a, b); }
      assert !ClassesReact(a, b) by { EmptyBreaksNothing(HazardPairRule, a, b); }
    } else {
      SortedSetMembers(AllKeys(a, b));
      if k in FlatMap(HazardSet(a), KeysAgainst(HazardSet(b))) { PairKeyIsByTheBook(a, b, k); }
      if ReactKey(a, b, k) {
        var x, y :| Carries(a, x) && Carries(b, y) && React(x, y) && k == "hazard-pair:" + InOrder(x, y);
        PairInTheBookIsKey(a, b, x, y);
      }
      RuleKeysByTheBook(a, b, k);
      SomeKey(a, b, k);
    }
  }

  function KeyOf(c: Conflict): string {
    match c
    case HazardPair(x, y) => PairKey(x, y)
    case _ => RuleKey(RuleOf(c))
  }

  /** A hazard pair found is a pair of members that react, with a key not had. */
  ghost predicate IsPair(c: Conflict, xs: seq<Entry>, ys: seq<Entry>, had: seq<string>) {
    && c.HazardPair? && c.a in xs && c.b in ys
    && !Compatible(c.a.hazardClass, c.b.hazardClass) && PairKey(c.a, c.b) !in had
  }

  lemma {:induction false} FirstPairWithIsPair(x: Entry, ys: seq<Entry>, had: seq<string>)
    ensures FirstPairWith(x, ys, had).Some? ==> IsPair(FirstPairWith(x, ys, had).value, [x], ys, had)
    decreases |ys|
  {
    if ys != [] {
      FirstPairWithIsPair(x, ys[1..], had);
      assert ys == [ys[0]] + ys[1..];
    }
  }

  lemma {:induction false} FirstPairIsPair(xs: seq<Entry>, ys: seq<Entry>, had: seq<string>)
    ensures FirstPair(xs, ys, had).Some? ==> IsPair(FirstPair(xs, ys, had).value, xs, ys, had)
    decreases |xs|
  {
    if xs != [] {
      FirstPairWithIsPair(xs[0], ys, had);
      FirstPairIsPair(xs[1..], ys, had);
      assert xs == [xs[0]] + xs[1..];
    }
  }

  lemma {:induction false} FirstRuleFired(rules: seq<Rule>, a: Profile, b: Profile, had: seq<string>)
    ensures var r := FirstRule(rules, a, b, had);
            r.Some? ==>
              && RuleOf(r.value) in rules && Fires(RuleOf(r.value), a, b) == r
              && RuleKey(RuleOf(r.value)) !in had
    decreases |rules|
  {
    if rules != [] {
      FiresIsSymmetric(rules[0], a, b);
      FirstRuleFired(rules[1..], a, b, had);
      assert rules == [rules[0]] + rules[1..];
    }
  }

  /** The conflict an edit is refused for is one of the edited SKU's, and the stored one did not
      have it. */
  lemma {:induction false} NewConflictIsNew(next: Profile, stored: Profile, b: Profile)
    requires NewGoodsConflict(next, stored, b).Some?
    ensures var k := KeyOf(NewGoodsConflict(next, stored, b).value);
            k in ConflictKeys(next, b) && k !in ConflictKeys(stored, b)
  {
    var had := ConflictKeys(stored, b);
    var pair := FirstPair(HazardSet(next), HazardSet(b), had);
    FirstPairIsPair(HazardSet(next), HazardSet(b), had);
    SortedSetMembers(AllKeys(next, b));
    if pair.Some? {
      var k := PairKey(pair.value.a, pair.value.b);
      assert k in KeysWith(pair.value.a)(pair.value.b);
      FlatMapMember(HazardSet(b), KeysWith(pair.value.a), k);
      assert k in KeysAgainst(HazardSet(b))(pair.value.a);
      FlatMapMember(HazardSet(next), KeysAgainst(HazardSet(b)), k);
    } else {
      var rules := NON_HAZARD_RULES;
      FirstRuleFired(rules, next, b, had);
      NewRuleIsNew(rules, next, b, had);
    }
  }

  lemma {:induction false} NewRuleIsNew(rules: seq<Rule>, a: Profile, b: Profile, had: seq<string>)
    requires rules == NON_HAZARD_RULES && FirstRule(rules, a, b, had).Some?
    ensures var k := KeyOf(FirstRule(rules, a, b, had).value);
            k in FlatMap(rules, RuleKeys(a, b)) && k !in had
  {
    FirstRuleFired(rules, a, b, had);
    var rule := RuleOf(FirstRule(rules, a, b, had).value);
    assert rule != HazardPairRule;
    assert RuleKey(rule) in RuleKeys(a, b)(rule);
    FlatMapMember(rules, RuleKeys(a, b), RuleKey(rule));
  }

  // ---- which pair is named -----------------------------------------------------

  /** The place of a class in the served grid; unknown classes come after it. */
  function Place(c: string): nat {
    if c == "explosive" then 0
    else if c == "oxidizer" then 1
    else if c == "flammable" then 2
    else if c == "corrosive-acid" then 3
    else if c == "corrosive-base" then 4
    else if c == "toxic" then 5
    else if c == "gas" then 6
    else 7
  }

  predicate Precedes(c: string, d: string) { Place(c) < Place(d) || (Place(c) == Place(d) && LexLess(c, d)) }

  lemma {:induction false} RankIsPlace(c: string, i: nat)
    requires i <= 7 && i <= Place(c)
    ensures RankFrom(c, i) == Place(c)
    decreases 7 - i
  {
    assert |HAZARD_CLASSES| == 7;
    if i < 7 && HAZARD_CLASSES[i] != c { RankIsPlace(c, i + 1); }
  }

  lemma {:induction false} RankedMeans(x: Entry, y: Entry)
    ensures RankedBefore(x, y) <==> x.hazardClass == y.hazardClass || Precedes(x.hazardClass, y.hazardClass)
  {
    RankIsPlace(x.hazardClass, 0);
    RankIsPlace(y.hazardClass, 0);
    LexTrichotomy(x.hazardClass, y.hazardClass);
  }

  lemma {:induction false} RankedIsTotal()
    ensures TotalPreorder(RankedBefore)
  {
    LexIsTotalOrder();
    forall x, y ensures RankedBefore(x, y) || RankedBefore(y, x) {
      assert LexLe(x.hazardClass, y.hazardClass) || LexLe(y.hazardClass, x.hazardClass);
    }
    forall x, y, z | RankedBefore(x, y) && RankedBefore(y, z) ensures RankedBefore(x, z) {
      assert LexLe(x.hazardClass, y.hazardClass) && LexLe(y.hazardClass, z.hazardClass) ==>
          LexLe(x.hazardClass, z.hazardClass);
    }
  }

  /** `y` reacts with `x`, and the pair is new. */
  predicate Candidate(x: Entry, y: Entry, had: seq<string>) {
    !Compatible(x.hazardClass, y.hazardClass) && PairKey(x, y) !in had
  }

  lemma {:induction false} FirstWithIsFirst(x: Entry, ys: seq<Entry>, had: seq<string>, y: Entry)
    requires Ordered(ys, RankedBefore) && y in ys && Candidate(x, y, had)
    ensures var r := FirstPairWith(x, ys, had);
            r.Some? && r.value.HazardPair? && r.value.a == x && RankedBefore(r.value.b, y)
    decreases |ys|
  {
    if y == ys[0] {
      RankedMeans(y, y);
    } else {
      var i :| 0 <= i < |ys| && ys[i] == y;
      assert RankedBefore(ys[0], ys[i]);
      assert ys[1..][i - 1] == y;
      forall j, k | 0 <= j < k < |ys| - 1 ensures RankedBefore(ys[1..][j], ys[1..][k]) {}
      if !Candidate(x, ys[0], had) { FirstWithIsFirst(x, ys[1..], had, y); }
    }
  }

  /** The search stops at the first class of `xs` that reacts, with the first class of `ys` that
      reacts with it. */
  lemma {:induction false} FirstPairIsFirst(xs: seq<Entry>, ys: seq<Entry>, had: seq<string>, x: Entry, y: Entry)
    requires Ordered(xs, RankedBefore) && Ordered(ys, RankedBefore)
    requires x in xs && y in ys && Candidate(x, y, had)
    ensures var r := FirstPair(xs, ys, had);
            && r.Some? && r.value.HazardPair? && RankedBefore(r.value.a, x)
            && (r.value.a.hazardClass == x.hazardClass ==> RankedBefore(r.value.b, y))
    decreases |xs|
  {
    var i :| 0 <= i < |xs| && xs[i] == x;
    if Candidate(xs[0], y, had) { FirstWithIsFirst(xs[0], ys, had, y); }
    RankedMeans(xs[0], x);
    if FirstPairWith(xs[0], ys, had).Some? {
      FirstPairWithIsPair(xs[0], ys, had);
      assert i > 0 ==> RankedBefore(xs[0], xs[i]);
    } else {
      assert xs[1..][i - 1] == x;
      forall j, k | 0 <= j < k < |xs| - 1 ensures RankedBefore(xs[1..][j], xs[1..][k]) {}
      FirstPairIsFirst(xs[1..], ys, had, x, y);
    }
  }

  /** How an entry came into the set: its class is the SKU's own, or that of the first subsidiary
      that counts as it. */
  ghost predicate ComesFrom(e: Entry, p: Profile, subs: seq<string>) {
    if p.hazardClass == Some(e.hazardClass) then e.viaSubsidiary == None
    else
      && e.viaSubsidiary.Some? && e.viaSubsidiary.value in subs && Derives(e.viaSubsidiary.value, e.hazardClass)
      && forall dg :: dg in subs && Derives(dg, e.hazardClass) ==> LexLe(e.viaSubsidiary.value, dg)
  }

  lemma {:induction false} CollectedComesFrom(p: Profile, subs: seq<string>, e: Entry)
    requires Ordered(subs, LexLe) && e in Collected(p, subs)
    ensures ComesFrom(e, p, subs)
  {
    if subs != [] {
      var front, last := subs[..|subs| - 1], subs[|subs| - 1];
      var entries := Collected(p, front);
      FrontAndLast(subs);
      forall j, k | 0 <= j < k < |front| ensures LexLe(front[j], front[k]) {
        assert LexLe(subs[j], subs[k]);
      }
      forall dg | dg in front ensures LexLe(dg, last) {
        var j :| 0 <= j < |front| && front[j] == dg;
        assert LexLe(subs[j], subs[|subs| - 1]);
      }
      DgHazardDerives(last, e.hazardClass);
      LexTrichotomy(last, last);
      if e in entries {
        CollectedComesFrom(p, front, e);
      } else {
        NewClass(p, front, e.hazardClass);
      }
    }
  }

  lemma {:induction false} NewClass(p: Profile, subs: seq<string>, c: string)
    requires c !in Map(Collected(p, subs), ClassOf)
    ensures p.hazardClass != Some(c) && forall dg :: dg in subs ==> !Derives(dg, c)
  {
    CollectedIsCarried(p, subs, c);
    forall i | 0 <= i < |Collected(p, subs)| ensures Collected(p, subs)[i].hazardClass != c {
      assert Map(Collected(p, subs), ClassOf)[i] == Collected(p, subs)[i].hazardClass;
    }
  }

  /** The pair named is the first: no class of `a` that reacts with `b` precedes it in the served
      grid, and no class of `b` that reacts with it precedes its partner; each with how the SKU
      came by it. `had` are the keys that do not matter any more. */
  ghost predicate IsFirstPair(c: Conflict, a: Profile, b: Profile, had: seq<string>) {
    && c.HazardPair?
    && ComesFrom(c.a, a, a.subsidiaries) && ComesFrom(c.b, b, b.subsidiaries)
    && React(c.a.hazardClass, c.b.hazardClass) && PairKey(c.a, c.b) !in had
    && forall x, y :: NewPair(x, y, a, b, had) ==>
         || Precedes(c.a.hazardClass, x)
         || (c.a.hazardClass == x && (c.b.hazardClass == y || Precedes(c.b.hazardClass, y)))
  }

  lemma {:induction false} HazardSetIsOrdered(p: Profile)
    ensures Ordered(HazardSet(p), RankedBefore)
    ensures forall e :: e in HazardSet(p) ==> ComesFrom(e, p, p.subsidiaries)
  {
    var subs := SortedSet(p.subsidiaries);
    RankedIsTotal();
    SortOrders(Collected(p, subs), RankedBefore);
    SortPermutes(Collected(p, subs), RankedBefore);
    SortedSetMembers(p.subsidiaries);
    forall e | e in HazardSet(p) ensures ComesFrom(e, p, p.subsidiaries) { CollectedComesFrom(p, subs, e); }
  }

  lemma {:induction false} PairFoundIsFirst(a: Profile, b: Profile, had: seq<string>)
    requires FirstPair(HazardSet(a), HazardSet(b), had).Some?
    ensures IsFirstPair(FirstPair(HazardSet(a), HazardSet(b), had).value, a, b, had)
  {
    var xs, ys := HazardSet(a), HazardSet(b);
    var c := FirstPair(xs, ys, had).value;
    FirstPairIsPair(xs, ys, had);
    HazardSetIsOrdered(a);
    HazardSetIsOrdered(b);
    IncompatibleReact(c.a.hazardClass, c.b.hazardClass);
    forall x, y | NewPair(x, y, a, b, had)
      ensures || Precedes(c.a.hazardClass, x)
              || (c.a.hazardClass == x && (c.b.hazardClass == y || Precedes(c.b.hazardClass, y)))
    {
      OtherPairIsLater(a, b, had, x, y);
    }
  }

  lemma {:induction false} OtherPairIsLater(a: Profile, b: Profile, had: seq<string>, x: string, y: string)
    requires Ordered(HazardSet(a), RankedBefore) && Ordered(HazardSet(b), RankedBefore)
    requires NewPair(x, y, a, b, had)
    ensures var r := FirstPair(HazardSet(a), HazardSet(b), had);
            && r.Some? && r.value.HazardPair?
            && var c := r.value;
               || Precedes(c.a.hazardClass, x)
               || (c.a.hazardClass == x && (c.b.hazardClass == y || Precedes(c.b.hazardClass, y)))
  {
    HazardSetIsCarried(a, x);
    HazardSetIsCarried(b, y);
    var d :| d in HazardSet(a) && d.hazardClass == x;
    var e :| e in HazardSet(b) && e.hazardClass == y;
    IncompatibleReact(x, y);
    FirstPairIsFirst(HazardSet(a), HazardSet(b), had, d, e);
    var c := FirstPair(HazardSet(a), HazardSet(b), had).value;
    RankedMeans(c.a, d);
    RankedMeans(c.b, e);
  }

  /** The pair `goodsConflict` names is the first of all that react, and the pair an edit is refused
      for the first the stored SKU did not have. */
  lemma {:induction false} NamedPairIsFirst(next: Profile, stored: Profile, b: Profile)
    ensures var c := GoodsConflict(next, b);
            c.Some? && c.value.HazardPair? ==> IsFirstPair(c.value, next, b, [])
    ensures var c := NewGoodsConflict(next, stored, b);
            c.Some? && c.value.HazardPair? ==> IsFirstPair(c.value, next, b, ConflictKeys(stored, b))
  {
    PairsFirst(next, b, []);
    PairsFirst(next, b, ConflictKeys(stored, b));
  }

  lemma {:induction false} PairsFirst(a: Profile, b: Profile, had: seq<string>)
    ensures var r, rule := FirstPair(HazardSet(a), HazardSet(b), had), FirstRule(NON_HAZARD_RULES, a, b, had);
            && (r.Some? ==> IsFirstPair(r.value, a, b, had))
            && (rule.Some? ==> !rule.value.HazardPair?)
  {
    if FirstPair(HazardSet(a), HazardSet(b), had).Some? { PairFoundIsFirst(a, b, had); }
    FirstRuleFired(NON_HAZARD_RULES, a, b, had);
    assert HazardPairRule !in NON_HAZARD_RULES;
  }

  // ---- the facts are put on the right side -----------------------------------

  lemma {:induction false} SingleSet(value: string)
    ensures SortedSet([value]) == [value]
  {
    DistinctSnoc([], value);
    assert [] + [value] == [value];
    assert [value][..0] == [];
    assert Sort([value], LexLe) == Insert(value, Sort([], LexLe), LexLe);
  }

  /** The schedules and the allergens of a label stand in the sorted order of their set. */
  lemma {:induction false} ListsRead(p: Profile, s: string)
    ensures p.drugSchedules == [s] ==> DrugLabel(p) == "drug: schedule " + s
    ensures p.foodCategory == Some("dairy") && p.allergens == [s] ==> AllergenLabel(p) == "dairy, allergens: " + s
  {
    SingleSet(s);
    assert Listed([s]) == s;
  }

  lemma {:induction false} TwoParts(x: string, y: string)
    ensures Listed([x] + [y]) == x + ", " + y
  {
    assert ([x] + [y])[..1] == [x];
  }

  /** A chemical's label gives its class, its DG class, or both, in that order. */
  lemma {:induction false} ChemicalReads(p: Profile, h: string, dg: string)
    ensures p.hazardClass == Some(h) && p.dgClass == None ==> ChemicalLabel(p) == "chemical: " + h
    ensures p.hazardClass == None && p.dgClass == Some(dg) ==> ChemicalLabel(p) == "chemical: " + ("DG " + dg)
    ensures p.hazardClass == Some(h) && p.dgClass == Some(dg) ==>
              ChemicalLabel(p) == "chemical: " + (h + ", " + ("DG " + dg))
  {
    TwoParts(h, "DG " + dg);
    assert [h] + [] == [h] && [] + ["DG " + dg] == ["DG " + dg];
  }

  lemma {:induction false} ConflictFired(a: Profile, b: Profile)
    requires GoodsConflict(a, b).Some?
    ensures var c := GoodsConflict(a, b).value;
            if c.HazardPair? then IsPair(c, HazardSet(a), HazardSet(b), []) else Fires(RuleOf(c), a, b) == Some(c)
  {
    FirstPairIsPair(HazardSet(a), HazardSet(b), []);
    FirstRuleFired(NON_HAZARD_RULES, a, b, []);
  }

  /** The label gives the class first, then the subsidiary it came from, if any. */
  ghost predicate Names(text: string, e: Entry) {
    && |text| >= |e.hazardClass| && text[..|e.hazardClass|] == e.hazardClass
    && var rest := text[|e.hazardClass|..];
       rest == (if e.viaSubsidiary.Some? then ", DG subsidiary " + e.viaSubsidiary.value else "")
  }

  lemma {:induction false} LabelNames(e: Entry)
    ensures Names(EntryLabel(e), e)
  {
    if e.viaSubsidiary.Some? {
      assert EntryLabel(e) == e.hazardClass + (", DG subsidiary " + e.viaSubsidiary.value);
    }
  }

  /** Each side's label is about that side. */
  ghost predicate Oriented(c: Conflict, a: Profile, b: Profile) {
    var facts := ConflictFacts(c, a, b);
    match c
    case HazardPair(x, y) =>
      && Names(facts.a, x) && Carries(a, x.hazardClass)
      && Names(facts.b, y) && Carries(b, y.hazardClass)
    case ExplosiveDg(_, _) =>
      && facts.pairVerdict == EXPLOSIVE_DG
      && if Carries(a, "explosive") && b.dgClass.Some?
         then facts.a == "explosive" && facts.b == "DG " + b.dgClass.value
         else facts.b == "explosive" && Carries(b, "explosive") && a.dgClass.Some? && facts.a == "DG " + a.dgClass.value
    case FoodChemical(_) =>
      && facts.pairVerdict == FOOD_CHEMICAL
      && if Edible(a) then facts.a == FoodLabel(a) && facts.b == ChemicalLabel(b) && PlainChemical(b)
         else facts.a == ChemicalLabel(a) && facts.b == FoodLabel(b) && Edible(b)
    case DrugChemical(_) =>
      && facts.pairVerdict == DRUG_CHEMICAL
      && if a.drugSchedules != [] then facts.a == DrugLabel(a) && facts.b == ChemicalLabel(b) && PlainChemical(b)
         else facts.a == ChemicalLabel(a) && facts.b == DrugLabel(b) && b.drugSchedules != []
    case AllergenMismatch =>
      facts.a == AllergenLabel(a) && facts.b == AllergenLabel(b) && facts.pairVerdict == ALLERGEN_MISMATCH
    case RawReadyToEat(_) =>
      && facts.pairVerdict == RAW_READY_TO_EAT
      && (|| (a.foodCategory == Some("meat-poultry-seafood") && facts.a == "meat-poultry-seafood"
              && b.foodCategory == Some(facts.b))
          || (b.foodCategory == Some("meat-poultry-seafood") && facts.b == "meat-poultry-seafood"
              && a.foodCategory == Some(facts.a)))
  }

  lemma {:induction false} FiredIsOriented(rule: Rule, a: Profile, b: Profile)
    requires Fires(rule, a, b).Some?
    ensures Oriented(Fires(rule, a, b).value, a, b)
  {
    match rule
    case ExplosiveDgRule => ExplosiveIsOriented(a, b);
    case RawReadyToEatRule => RawIsOriented(a, b);
    case FoodChemicalRule => FoodIsOriented(a, b);
    case DrugChemicalRule => DrugIsOriented(a, b);
    case AllergenMismatchRule =>
  }

  lemma {:induction false} FoodIsOriented(a: Profile, b: Profile)
    requires Fires(FoodChemicalRule, a, b).Some?
    ensures Oriented(Fires(FoodChemicalRule, a, b).value, a, b)
  {
  }

  lemma {:induction false} DrugIsOriented(a: Profile, b: Profile)
    requires Fires(DrugChemicalRule, a, b).Some?
    ensures Oriented(Fires(DrugChemicalRule, a, b).value, a, b)
  {
  }

  lemma {:induction false} RawIsOriented(a: Profile, b: Profile)
    requires Fires(RawReadyToEatRule, a, b).Some?
    ensures Oriented(Fires(RawReadyToEatRule, a, b).value, a, b)
  {
    ReadyMeans(a);
    ReadyMeans(b);
  }

  lemma {:induction false} ExplosiveIsOriented(a: Profile, b: Profile)
    requires Fires(ExplosiveDgRule, a, b).Some?
    ensures Oriented(Fires(ExplosiveDgRule, a, b).value, a, b)
  {
    HoldsExplosiveMeans(a);
    HoldsExplosiveMeans(b);
  }

  /** The facts of every conflict are oriented to the arguments. */
  lemma {:induction false} FactsAreOriented(a: Profile, b: Profile)
    requires GoodsConflict(a, b).Some?
    ensures Oriented(GoodsConflict(a, b).value, a, b)
  {
    ConflictFired(a, b);
    var c := GoodsConflict(a, b).value;
    if c.HazardPair? {
      HazardSetIsCarried(a, c.a.hazardClass);
      HazardSetIsCarried(b, c.b.hazardClass);
      LabelNames(c.a);
      LabelNames(c.b);
    } else {
      FiredIsOriented(RuleOf(c), a, b);
    }
  }
}
