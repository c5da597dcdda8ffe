/** Assignment of weekly activity programs to the persons of a synthesised
    household. Each person is matched to a person of the travel panel; the
    panel person's week is turned into a tour-based pattern once and cached
    under the panel person's id, so later persons matched to the same panel
    person get the cached pattern.

    The panel repository, the schedule creator and the pattern conversion
    are not part of this model; they are functions fixed at construction.
    The types of panel persons (P), panel households (H), activity weeks (W)
    and tour-based patterns (A) are left open. */
module ActivityAssigners {
  import opened Wrappers

  datatype HouseholdId = HouseholdId(year: int, householdNumber: int)
  datatype PersonId = PersonId(personNumber: int)
  datatype HouseholdOfPanelDataId = HouseholdOfPanelDataId(year: int, householdNumber: int)
  datatype PersonOfPanelDataId = PersonOfPanelDataId(householdId: HouseholdOfPanelDataId, personNumber: int)

  /** A person under construction; the assigner sets its activity pattern. */
  class PersonBuilder<A> {
    const id: PersonId
    var patternActivityWeek: Option<A>

    constructor (id: PersonId)
      ensures this.id == id && patternActivityWeek == None
    {
      this.id := id;
      patternActivityWeek := None;
    }

    method SetPatternActivityWeek(pattern: A)
      modifies this
      ensures patternActivityWeek == Some(pattern)
    {
      patternActivityWeek := Some(pattern);
    }
  }

  datatype HouseholdForSetup<A> = HouseholdForSetup(id: HouseholdId, persons: seq<PersonBuilder<A>>)

  function PersonsOf<A>(household: HouseholdForSetup<A>): set<PersonBuilder<A>> {
    set p | p in household.persons
  }

  /** The panel household id of a household: its year and number. */
  function PanelHouseholdId<A>(household: HouseholdForSetup<A>): HouseholdOfPanelDataId {
    HouseholdOfPanelDataId(household.id.year, household.id.householdNumber)
  }

  /** The panel person id of a person: the panel household id and the
      person's number. */
  function CreatePersonPanelIdFor<A>(person: PersonBuilder<A>, householdId: HouseholdOfPanelDataId): (id: PersonOfPanelDataId)
    ensures id.householdId == householdId && id.personNumber == person.id.personNumber
  {
    PersonOfPanelDataId(householdId, person.id.personNumber)
  }

  class DefaultActivityAssigner<P, H, W, A> {
    const getHousehold: HouseholdOfPanelDataId -> H
    const getPerson: PersonOfPanelDataId -> P
    /** The id a panel person reports; the cache is keyed by it. */
    const panelIdOf: P -> PersonOfPanelDataId
    const createActivitySchedule: (P, H, HouseholdForSetup<A>) -> W
    const fromPatternActivityWeek: W -> A

    var cachedActivityPattern: map<PersonOfPanelDataId, A>
    /** The panel persons for which a schedule was created, in order. */
    var createdSchedules: seq<P>

    constructor (
      getHousehold: HouseholdOfPanelDataId -> H,
      getPerson: PersonOfPanelDataId -> P,
      panelIdOf: P -> PersonOfPanelDataId,
      createActivitySchedule: (P, H, HouseholdForSetup<A>) -> W,
      fromPatternActivityWeek: W -> A)
      ensures this.getHousehold == getHousehold && this.getPerson == getPerson && this.panelIdOf == panelIdOf
      ensures this.createActivitySchedule == createActivitySchedule
      ensures this.fromPatternActivityWeek == fromPatternActivityWeek
      ensures cachedActivityPattern == map[] && createdSchedules == []
    {
      this.getHousehold := getHousehold;
      this.getPerson := getPerson;
      this.panelIdOf := panelIdOf;
      this.createActivitySchedule := createActivitySchedule;
      this.fromPatternActivityWeek := fromPatternActivityWeek;
      cachedActivityPattern := map[];
      createdSchedules := [];
    }

    function PanelPerson(household: HouseholdForSetup<A>, person: PersonBuilder<A>): P {
      getPerson(CreatePersonPanelIdFor(person, PanelHouseholdId(household)))
    }

    function CacheKey(household: HouseholdForSetup<A>, person: PersonBuilder<A>): PersonOfPanelDataId {
      panelIdOf(PanelPerson(household, person))
    }

    /** The tour-based pattern converted from a newly created week. */
    function ConvertedPattern(household: HouseholdForSetup<A>, person: PersonBuilder<A>): A {
      fromPatternActivityWeek(createActivitySchedule(
        PanelPerson(household, person), getHousehold(PanelHouseholdId(household)), household))
    }

    /** The cache after one person: a new key gets the converted pattern, an
        existing one is kept. */
    function Store(cache: map<PersonOfPanelDataId, A>, household: HouseholdForSetup<A>, person: PersonBuilder<A>): map<PersonOfPanelDataId, A> {
      var key := CacheKey(household, person);
      if key in cache then cache else cache[key := ConvertedPattern(household, person)]
    }

    /** The cache after the first n persons of the household. */
    function Memo(cache: map<PersonOfPanelDataId, A>, household: HouseholdForSetup<A>, n: nat): map<PersonOfPanelDataId, A>
      requires n <= |household.persons|
    {
      if n == 0 then cache else Store(Memo(cache, household, n - 1), household, household.persons[n - 1])
    }

    /** Assigns every person of the household the cached pattern of its panel
        person, converting and caching it first when it is not cached yet. A
        schedule is created for every person, cached or not. */
    method AssignActivitySchedule(household: HouseholdForSetup<A>)
      modifies this, PersonsOf(household)
      ensures cachedActivityPattern == Memo(old(cachedActivityPattern), household, |household.persons|)
      ensures forall p :: p in household.persons ==>
        CacheKey(household, p) in cachedActivityPattern &&
        p.patternActivityWeek == Some(cachedActivityPattern[CacheKey(household, p)])
      ensures createdSchedules == old(createdSchedules) +
        seq(|household.persons|, i requires 0 <= i < |household.persons| => PanelPerson(household, household.persons[i]))
    {
      var householdId := PanelHouseholdId(household);
      var panelHousehold := getHousehold(householdId);
      for i := 0 to |household.persons|
        invariant cachedActivityPattern == Memo(old(cachedActivityPattern), household, i)
        invariant forall j :: 0 <= j < i ==>
          CacheKey(household, household.persons[j]) in cachedActivityPattern &&
          household.persons[j].patternActivityWeek == Some(cachedActivityPattern[CacheKey(household, household.persons[j])])
        invariant createdSchedules == old(createdSchedules) +
          seq(i, j requires 0 <= j < i => PanelPerson(household, household.persons[j]))
      {
        DoAssignActivityProgramTo(household.persons[i], householdId, panelHousehold, household);
      }
    }

    method DoAssignActivityProgramTo(
      person: PersonBuilder<A>, householdId: HouseholdOfPanelDataId, panelHousehold: H, household: HouseholdForSetup<A>)
      requires householdId == PanelHouseholdId(household) && panelHousehold == getHousehold(householdId)
      modifies this, person
      ensures cachedActivityPattern == Store(old(cachedActivityPattern), household, person)
      ensures forall k :: k in old(cachedActivityPattern) ==> k in cachedActivityPattern && cachedActivityPattern[k] == old(cachedActivityPattern)[k]
      ensures CacheKey(household, person) in cachedActivityPattern
      ensures person.patternActivityWeek == Some(cachedActivityPattern[CacheKey(household, person)])
      ensures createdSchedules == old(createdSchedules) + [PanelPerson(household, person)]
    {
      var personId := CreatePersonPanelIdFor(person, householdId);
      var panelPerson := getPerson(personId);
      var activityPattern := createActivitySchedule(panelPerson, panelHousehold, household);
      createdSchedules := createdSchedules + [panelPerson];
      var activitySchedule;
      if panelIdOf(panelPerson) in cachedActivityPattern {
        activitySchedule := cachedActivityPattern[panelIdOf(panelPerson)];
      } else {
        activitySchedule := fromPatternActivityWeek(activityPattern);
        cachedActivityPattern := cachedActivityPattern[panelIdOf(panelPerson) := activitySchedule];
      }
      person.SetPatternActivityWeek(activitySchedule);
    }

    /** Cached entries are never overwritten, and the cache gains exactly the
        keys of the household's persons. */
    lemma {:induction false} MemoKeepsEntries(cache: map<PersonOfPanelDataId, A>, household: HouseholdForSetup<A>, n: nat)
      requires n <= |household.persons|
      ensures forall k :: k in cache ==> k in Memo(cache, household, n) && Memo(cache, household, n)[k] == cache[k]
      ensures Memo(cache, household, n).Keys ==
        cache.Keys + set j | 0 <= j < n :: CacheKey(household, household.persons[j])
    {
      if n > 0 {
        MemoKeepsEntries(cache, household, n - 1);
        var before := set j | 0 <= j < n - 1 :: CacheKey(household, household.persons[j]);
        var after := set j | 0 <= j < n :: CacheKey(household, household.persons[j]);
        assert after == before + {CacheKey(household, household.persons[n - 1])};
      }
    }

    /** The pattern cached for a key is the one converted for the first person
        of the household with that key, when the key was not cached before. */
    lemma {:induction false} MemoFirstPersonWins(cache: map<PersonOfPanelDataId, A>, household: HouseholdForSetup<A>, n: nat, j: nat)
      requires j < n <= |household.persons|
      requires CacheKey(household, household.persons[j]) !in cache
      requires forall i :: 0 <= i < j ==> CacheKey(household, household.persons[i]) != CacheKey(household, household.persons[j])
      ensures CacheKey(household, household.persons[j]) in Memo(cache, household, n)
      ensures Memo(cache, household, n)[CacheKey(household, household.persons[j])] ==
        ConvertedPattern(household, household.persons[j])
    {
      var key := CacheKey(household, household.persons[j]);
      MemoKeepsEntries(cache, household, n);
      assert key in set i | 0 <= i < n :: CacheKey(household, household.persons[i]);
      if n - 1 == j {
        MemoKeepsEntries(cache, household, j);
        assert key !in Memo(cache, household, j);
      } else {
        MemoFirstPersonWins(cache, household, n - 1, j);
        MemoKeepsEntries(cache, household, n - 1);
      }
    }
  }
}
