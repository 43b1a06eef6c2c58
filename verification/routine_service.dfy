/** The offline routine generator (`RoutineGenerator`): it picks a routine type from the
    goals by keyword, filters each muscle group's catalog entries by the equipment the
    user has, samples two or three of them per group and lays the days out on a
    three-focus rotation. `random.randint`, `random.sample` and `random.choice` are the
    nondeterministic choices `:|` of the methods below. */
module RoutineService {
  import opened Wrappers
  import opened Text
  import opened Models
  import opened Schemas
  import opened Catalog

  function Min(a: int, b: int): int {
    if a <= b then a else b
  }

  /** `a` is `b` with some entries left out, the rest in their order. */
  predicate SubsequenceOf<T(==)>(a: seq<T>, b: seq<T>)
    decreases |b|
  {
    if a == [] then true
    else if b == [] then false
    else if a[|a| - 1] == b[|b| - 1] then SubsequenceOf(a[..|a| - 1], b[..|b| - 1])
    else SubsequenceOf(a, b[..|b| - 1])
  }

  // ---------------------------------------------------------------------------------------
  // _determine_routine_type

  /** The goal keywords of each routine type, in the order they are tried. */
  const GoalKeywords: seq<(string, seq<string>)> := [
    ("masa", ["masa", "volumen", "hipertrofia", "crecer", "aumentar", "tamaño"]),
    ("definición", ["definición", "definir", "marcar", "tonificar"]),
    ("fuerza", ["fuerza", "fuerte", "potencia"]),
    ("resistencia", ["resistencia", "aguante", "cardio", "quemar", "adelgazar"])
  ]

  /** The first keyword row at or after `k` that the (lower-cased) goals mention, or
      `|GoalKeywords|` when none does. */
  function FirstGoalMatch(goals: string, k: nat): (j: nat)
    requires k <= |GoalKeywords|
    decreases |GoalKeywords| - k
    ensures k <= j <= |GoalKeywords|
    ensures j < |GoalKeywords| ==> MentionsAny(goals, GoalKeywords[j].1)
    ensures forall i :: k <= i < j ==> !MentionsAny(goals, GoalKeywords[i].1)
  {
    if k == |GoalKeywords| then k
    else if MentionsAny(goals, GoalKeywords[k].1) then k
    else FirstGoalMatch(goals, k + 1)
  }

  /** The routine type for the goals: the type of the first keyword row the lower-cased goals
      mention, "mantenimiento" when they mention none. */
  function DetermineRoutineType(goals: string): (t: string)
    ensures t in RoutineTypes && |RoutineTypes[t].focusMap| == 3
    ensures forall j :: 0 <= j < |GoalKeywords| ==>
      (t == GoalKeywords[j].0 <==>
        MentionsAny(Lower(goals), GoalKeywords[j].1) && forall i :: 0 <= i < j ==> !MentionsAny(Lower(goals), GoalKeywords[i].1))
    ensures t == MaintenanceType <==> forall j :: 0 <= j < |GoalKeywords| ==> !MentionsAny(Lower(goals), GoalKeywords[j].1)
  {
    var j := FirstGoalMatch(Lower(goals), 0);
    if j < |GoalKeywords| then GoalKeywords[j].0 else MaintenanceType
  }

  // ---------------------------------------------------------------------------------------
  // _filter_by_equipment

  /** The equipment words a user may mention and the catalog terms each one makes available. */
  const EquipmentKeywords: seq<(string, seq<string>)> := [
    ("casa", ["peso corporal", "mancuernas", "ninguno"]),
    ("gym", ["todas", "barra", "máquina", "polea"]),
    ("mancuernas", ["mancuernas", "peso libre"]),
    ("barra", ["barra"]),
    ("máquina", ["máquina", "polea"])
  ]

  /** What a home user is assumed to have. */
  const HomeTerms: seq<string> := ["peso corporal", "mancuernas", "ninguno"]

  /** Words that mean "everything is available". */
  const FullGymWords: seq<string> := ["todo", "completo", "gym", "gimnasio"]

  /** The terms of the first `n` equipment rows whose word the equipment text mentions, in order. */
  function MentionedTerms(equipment: string, n: nat): seq<string>
    requires n <= |EquipmentKeywords|
  {
    if n == 0 then []
    else
      var row := EquipmentKeywords[n - 1];
      MentionedTerms(equipment, n - 1) + (if Contains(equipment, row.0) then row.1 else [])
  }

  /** The terms a (lower-cased) equipment text makes available: the home set when it mentions
      no equipment word or mentions "casa". */
  function AvailableTerms(equipment: string): seq<string> {
    var has := MentionedTerms(equipment, |EquipmentKeywords|);
    if has == [] || Contains(equipment, "casa") then HomeTerms else has
  }

  /** The entry needs no equipment. */
  predicate Bodyweight(item: CatalogItem) {
    var e := Lower(item.equipment);
    Contains(e, "peso corporal") || Contains(e, "ninguno")
  }

  /** The entry's equipment mentions one of the available terms, or it needs no equipment. */
  predicate Usable(item: CatalogItem, terms: seq<string>) {
    MentionsAny(Lower(item.equipment), terms) || Bodyweight(item)
  }

  /** The usable entries, in catalog order. */
  function KeepUsable(items: seq<CatalogItem>, terms: seq<string>): (r: seq<CatalogItem>)
    ensures forall x :: x in r <==> x in items && Usable(x, terms)
  {
    if items == [] then []
    else
      var last := items[|items| - 1];
      assert items == items[..|items| - 1] + [last];
      KeepUsable(items[..|items| - 1], terms) + (if Usable(last, terms) then [last] else [])
  }

  lemma {:induction false} KeepUsableDistinct(items: seq<CatalogItem>, terms: seq<string>)
    requires DistinctNames(items)
    ensures DistinctNames(KeepUsable(items, terms))
    decreases |items|
  {
    if items != [] {
      var init := KeepUsable(items[..|items| - 1], terms);
      var last := items[|items| - 1];
      KeepUsableDistinct(items[..|items| - 1], terms);
      forall x | x in init ensures x.name != last.name {
        var p :| 0 <= p < |items| - 1 && items[p] == x;
      }
    }
  }

  lemma {:induction false} KeepUsableIsSubsequence(items: seq<CatalogItem>, terms: seq<string>)
    ensures SubsequenceOf(KeepUsable(items, terms), items)
    decreases |items|
  {
    if items != [] {
      var init := KeepUsable(items[..|items| - 1], terms);
      var last := items[|items| - 1];
      KeepUsableIsSubsequence(items[..|items| - 1], terms);
      if Usable(last, terms) {
        assert KeepUsable(items, terms) == init + [last];
        assert (init + [last])[..|init|] == init;
      } else {
        assert KeepUsable(items, terms) == init;
      }
    }
  }

  /** What `_filter_by_equipment` returns: the whole list when the text mentions a full-gym
      word, otherwise the usable entries, and the no-equipment entries should none be usable. */
  function EquipmentFilter(items: seq<CatalogItem>, availableEquipment: string): (r: seq<CatalogItem>)
    ensures SubsequenceOf(r, items)
    ensures forall x :: x in r ==> x in items
    ensures DistinctNames(items) ==> DistinctNames(r)
  {
    var e := Lower(availableEquipment);
    if MentionsAny(e, FullGymWords) then
      SubsequenceOfSelf(items);
      items
    else
      var f := KeepUsable(items, AvailableTerms(e));
      KeepUsableIsSubsequence(items, AvailableTerms(e));
      KeepUsableIsSubsequence(items, []);
      if DistinctNames(items) then
        KeepUsableDistinct(items, AvailableTerms(e));
        KeepUsableDistinct(items, []);
        if f != [] then f else KeepUsable(items, [])
      else
        if f != [] then f else KeepUsable(items, [])
  }

  lemma {:induction false} SubsequenceOfSelf<T>(s: seq<T>)
    ensures SubsequenceOf(s, s)
    decreases |s|
  {
    if s != [] {
      SubsequenceOfSelf(s[..|s| - 1]);
    }
  }

  /** The no-equipment fallback never contributes: every no-equipment entry is usable
      whatever the terms, so when no entry is usable none needs no equipment either. */
  lemma FallbackIsEmpty(items: seq<CatalogItem>, terms: seq<string>)
    requires KeepUsable(items, terms) == []
    ensures KeepUsable(items, []) == []
  {
  }

  /** Outside the full-gym case the filter keeps exactly the usable entries. */
  lemma EquipmentFilterKeepsUsable(items: seq<CatalogItem>, availableEquipment: string, x: CatalogItem)
    requires !MentionsAny(Lower(availableEquipment), FullGymWords)
    ensures x in EquipmentFilter(items, availableEquipment) <==>
              x in items && Usable(x, AvailableTerms(Lower(availableEquipment)))
  {
    var terms := AvailableTerms(Lower(availableEquipment));
    if KeepUsable(items, terms) == [] {
      FallbackIsEmpty(items, terms);
    }
  }

  /** `_filter_by_equipment`: collects the available terms row by row, then keeps the usable entries. */
  method FilterByEquipment(exercises: seq<CatalogItem>, availableEquipment: string) returns (r: seq<CatalogItem>)
    ensures r == EquipmentFilter(exercises, availableEquipment)
  {
    var equipment := Lower(availableEquipment);
    var has: seq<string> := [];
    var k := 0;
    while k < |EquipmentKeywords|
      invariant 0 <= k <= |EquipmentKeywords|
      invariant has == MentionedTerms(equipment, k)
    {
      if Contains(equipment, EquipmentKeywords[k].0) {
        has := has + EquipmentKeywords[k].1;
      }
      k := k + 1;
    }
    if MentionsAny(equipment, FullGymWords) {
      return exercises;
    }
    if has == [] || Contains(equipment, "casa") {
      has := HomeTerms;
    }
    var filtered: seq<CatalogItem> := [];
    var i := 0;
    while i < |exercises|
      invariant 0 <= i <= |exercises|
      invariant filtered == KeepUsable(exercises[..i], has)
    {
      assert exercises[..i + 1][..i] == exercises[..i];
      if Usable(exercises[i], has) {
        filtered := filtered + [exercises[i]];
      }
      i := i + 1;
    }
    assert exercises[..i] == exercises;
    if filtered == [] {
      return KeepUsable(exercises, []);
    }
    return filtered;
  }

  // ---------------------------------------------------------------------------------------
  // random.sample

  /** The indices in `chosen` are pairwise distinct and below `n`. */
  predicate DistinctIndices(chosen: seq<nat>, n: nat) {
    (forall a :: 0 <= a < |chosen| ==> chosen[a] < n)
    && forall a, b :: 0 <= a < b < |chosen| ==> chosen[a] != chosen[b]
  }

  /** Fewer than `n` distinct indices below `n` leave one out. */
  lemma {:induction false} UnusedIndexExists(chosen: seq<nat>, n: nat)
    requires DistinctIndices(chosen, n) && |chosen| < n
    ensures exists j :: 0 <= j < n && j !in chosen
  {
    if n - 1 in chosen {
      var p :| 0 <= p < |chosen| && chosen[p] == n - 1;
      var rest := chosen[..p] + chosen[p + 1..];
      assert forall a :: 0 <= a < |rest| ==> rest[a] == (if a < p then chosen[a] else chosen[a + 1]);
      UnusedIndexExists(rest, n - 1);
      var j :| 0 <= j < n - 1 && j !in rest;
      forall q | 0 <= q < |chosen| ensures chosen[q] != j {
        if q < p {
          assert rest[q] == chosen[q];
        } else if q > p {
          assert rest[q - 1] == chosen[q];
        }
      }
      assert j !in chosen;
    } else {
      assert n - 1 !in chosen;
    }
  }

  /** `random.sample(pool, k)`: `k` entries at distinct positions of the pool. */
  method Sample(pool: seq<CatalogItem>, k: nat) returns (picked: seq<CatalogItem>)
    requires k <= |pool|
    ensures |picked| == k
    ensures forall x :: x in picked ==> x in pool
    ensures DistinctNames(pool) ==> DistinctNames(picked)
  {
    var chosen: seq<nat> := [];
    picked := [];
    while |picked| < k
      invariant |chosen| == |picked| <= k
      invariant DistinctIndices(chosen, |pool|)
      invariant forall a :: 0 <= a < |chosen| ==> picked[a] == pool[chosen[a]]
    {
      UnusedIndexExists(chosen, |pool|);
      var j :| 0 <= j < |pool| && j !in chosen;
      chosen := chosen + [j];
      picked := picked + [pool[j]];
    }
  }

  // ---------------------------------------------------------------------------------------
  // create_initial_routine

  /** The catalog entry an exercise was made from. */
  function ItemOf(e: Exercise): CatalogItem {
    CatalogItem(e.name, e.equipment)
  }

  /** The exercise carries the routine type's sets, reps and rest. */
  predicate Prescribed(e: Exercise, cfg: RoutineConfig) {
    e.sets == cfg.sets && e.reps == cfg.reps && e.rest == cfg.rest
  }

  predicate ExerciseNamesDistinct(exs: seq<Exercise>) {
    forall i, j :: 0 <= i < j < |exs| ==> exs[i].name != exs[j].name
  }

  /** The equipment-filtered entries of a catalog group. */
  function Pool(group: string, equipment: string): seq<CatalogItem>
    requires group in ExerciseCatalog
  {
    EquipmentFilter(ExerciseCatalog[group], equipment)
  }

  /** The fewest (`k` = 2) or most (`k` = 3) exercises the groups yield on one day. */
  function ExerciseCountBound(groups: seq<string>, equipment: string, k: int): int
    requires forall g :: g in groups ==> g in ExerciseCatalog
  {
    if groups == [] then 0
    else ExerciseCountBound(groups[..|groups| - 1], equipment, k) + Min(k, |Pool(groups[|groups| - 1], equipment)|)
  }

  /** `exs` is what one muscle group contributes to a day: two or three distinct entries of
      the group's filtered pool (all of it when it is smaller), each with the routine type's
      prescription. */
  ghost predicate GroupDrawn(exs: seq<Exercise>, group: string, equipment: string, cfg: RoutineConfig)
    requires group in ExerciseCatalog
  {
    && (|exs| == Min(2, |Pool(group, equipment)|) || |exs| == Min(3, |Pool(group, equipment)|))
    && (forall e :: e in exs ==> Prescribed(e, cfg) && ItemOf(e) in Pool(group, equipment))
    && ExerciseNamesDistinct(exs)
  }

  /** One group's contribution to a day (see `GroupDrawn`). */
  method GroupExercises(group: string, equipment: string, cfg: RoutineConfig) returns (exs: seq<Exercise>)
    requires group in ExerciseCatalog
    ensures GroupDrawn(exs, group, equipment, cfg)
  {
    var num :| 2 <= num <= 3;
    var items := ExerciseCatalog[group];
    CatalogNamesDistinct(group);
    exs := SampleExercises(items, equipment, cfg, num);
  }

  /** The sampling and prescription step of `GroupExercises`, on the group's catalog entries. */
  method SampleExercises(items: seq<CatalogItem>, equipment: string, cfg: RoutineConfig, num: nat)
    returns (exs: seq<Exercise>)
    requires DistinctNames(items)
    ensures |exs| == Min(num, |EquipmentFilter(items, equipment)|)
    ensures forall e :: e in exs ==> Prescribed(e, cfg) && ItemOf(e) in EquipmentFilter(items, equipment)
    ensures ExerciseNamesDistinct(exs)
  {
    var pool := FilterByEquipment(items, equipment);
    var selected := Sample(pool, Min(num, |pool|));
    exs := [];
    var i := 0;
    while i < |selected|
      invariant 0 <= i <= |selected| && |exs| == i
      invariant forall a :: 0 <= a < i ==>
        exs[a] == Exercise(selected[a].name, cfg.sets, cfg.reps, cfg.rest, selected[a].equipment)
    {
      exs := exs + [Exercise(selected[i].name, cfg.sets, cfg.reps, cfg.rest, selected[i].equipment)];
      i := i + 1;
    }
    forall e | e in exs ensures Prescribed(e, cfg) && ItemOf(e) in pool {
      var a :| 0 <= a < |exs| && exs[a] == e;
      assert selected[a] in selected;
    }
  }

  /** `focus.replace("/", " y ").capitalize()`: the label of a day, such as "Pecho y triceps"
      for "pecho/triceps". */
  function FocusLabel(focus: string): (r: string)
    ensures '/' !in r
    ensures '/' !in focus ==> r == Capitalize(focus)
    ensures focus != [] && focus[0] != '/' ==> r != [] && r[0] == UpperChar(focus[0])
  {
    var joined := ReplaceChar(focus, '/', " y ");
    CapitalizeKeepsAbsent(joined, '/');
    Capitalize(joined)
  }

  /** The blocks one after the other. */
  function Concat(blocks: seq<seq<Exercise>>): seq<Exercise>
  {
    if blocks == [] then [] else Concat(blocks[..|blocks| - 1]) + blocks[|blocks| - 1]
  }

  /** Block `j` is what the `j`-th group contributes. */
  ghost predicate BlocksDrawn(blocks: seq<seq<Exercise>>, groups: seq<string>, equipment: string, cfg: RoutineConfig)
    requires forall g :: g in groups ==> g in ExerciseCatalog
  {
    |blocks| == |groups| && forall j :: 0 <= j < |groups| ==> GroupDrawn(blocks[j], groups[j], equipment, cfg)
  }

  /** `day` is the `i`-th generated day of a routine of the given type whose focus names
      `groups`: its exercises are, group by group in the focus's order, each group's draw. */
  ghost predicate DayGenerated(day: Day, i: nat, cfg: RoutineConfig, groups: seq<string>, equipment: string)
    requires 0 < |cfg.focusMap| && i < |DaysOfWeek|
    requires forall g :: g in groups ==> g in ExerciseCatalog
  {
    && day.dayName == DaysOfWeek[i]
    && day.focus == FocusLabel(cfg.focusMap[i % |cfg.focusMap|])
    && exists blocks :: BlocksDrawn(blocks, groups, equipment, cfg) && day.exercises == Concat(blocks)
  }

  /** A generated day holds between two and three exercises per group (fewer where a pool is
      smaller), each prescribed and drawn from the pool of one of the focus's groups. */
  lemma DayBounds(day: Day, i: nat, cfg: RoutineConfig, groups: seq<string>, equipment: string)
    requires 0 < |cfg.focusMap| && i < |DaysOfWeek|
    requires forall g :: g in groups ==> g in ExerciseCatalog
    requires DayGenerated(day, i, cfg, groups, equipment)
    ensures ExerciseCountBound(groups, equipment, 2) <= |day.exercises| <= ExerciseCountBound(groups, equipment, 3)
    ensures forall e :: e in day.exercises ==>
      Prescribed(e, cfg) && exists g :: g in groups && ItemOf(e) in Pool(g, equipment)
  {
    var blocks :| BlocksDrawn(blocks, groups, equipment, cfg) && day.exercises == Concat(blocks);
    ConcatBounds(blocks, groups, equipment, cfg);
  }

  /** The counting and provenance facts of `DayBounds`, by induction on the groups. */
  lemma {:induction false} ConcatBounds(blocks: seq<seq<Exercise>>, groups: seq<string>, equipment: string, cfg: RoutineConfig)
    requires forall g :: g in groups ==> g in ExerciseCatalog
    requires BlocksDrawn(blocks, groups, equipment, cfg)
    ensures ExerciseCountBound(groups, equipment, 2) <= |Concat(blocks)| <= ExerciseCountBound(groups, equipment, 3)
    ensures forall e :: e in Concat(blocks) ==>
      Prescribed(e, cfg) && exists g :: g in groups && ItemOf(e) in Pool(g, equipment)
  {
    if groups != [] {
      var n := |groups|;
      var front, last := groups[..n - 1], groups[n - 1];
      assert forall g :: g in front ==> g in groups;
      assert BlocksDrawn(blocks[..n - 1], front, equipment, cfg) by {
        forall j | 0 <= j < n - 1 ensures GroupDrawn(blocks[..n - 1][j], front[j], equipment, cfg) {
          assert blocks[..n - 1][j] == blocks[j] && front[j] == groups[j];
        }
      }
      ConcatBounds(blocks[..n - 1], front, equipment, cfg);
      assert GroupDrawn(blocks[n - 1], last, equipment, cfg);
      forall e | e in Concat(blocks)
        ensures Prescribed(e, cfg) && exists g :: g in groups && ItemOf(e) in Pool(g, equipment)
      {
        if e in Concat(blocks[..n - 1]) {
          var g :| g in front && ItemOf(e) in Pool(g, equipment);
          assert g in groups;
        } else {
          assert e in blocks[n - 1];
          assert last in groups;
        }
      }
    }
  }

  /** Appending a group's draw extends the blocks by one. */
  lemma BlocksGrow(blocks: seq<seq<Exercise>>, groups: seq<string>, k: nat, equipment: string, cfg: RoutineConfig, more: seq<Exercise>)
    requires k < |groups| && forall g :: g in groups ==> g in ExerciseCatalog
    requires BlocksDrawn(blocks, groups[..k], equipment, cfg)
    requires GroupDrawn(more, groups[k], equipment, cfg)
    ensures BlocksDrawn(blocks + [more], groups[..k + 1], equipment, cfg)
    ensures Concat(blocks + [more]) == Concat(blocks) + more
  {
    assert (blocks + [more])[..|blocks|] == blocks;
    forall j | 0 <= j < k + 1 ensures GroupDrawn((blocks + [more])[j], groups[..k + 1][j], equipment, cfg) {
      if j < k {
        assert (blocks + [more])[j] == blocks[j] && groups[..k + 1][j] == groups[..k][j];
      }
    }
  }

  /** One day: for each muscle group of its focus, in order, that group's sampled exercises. */
  method GenerateDay(i: nat, cfg: RoutineConfig, groups: seq<string>, equipment: string) returns (day: Day)
    requires 0 < |cfg.focusMap| && i < |DaysOfWeek|
    requires forall g :: g in groups ==> g in ExerciseCatalog
    ensures DayGenerated(day, i, cfg, groups, equipment)
  {
    var exercises: seq<Exercise> := [];
    ghost var blocks: seq<seq<Exercise>> := [];
    var k := 0;
    while k < |groups|
      invariant 0 <= k <= |groups|
      invariant BlocksDrawn(blocks, groups[..k], equipment, cfg)
      invariant exercises == Concat(blocks)
    {
      var more := GroupExercises(groups[k], equipment, cfg);
      BlocksGrow(blocks, groups, k, equipment, cfg, more);
      exercises := exercises + more;
      blocks := blocks + [more];
      k := k + 1;
    }
    assert groups[..k] == groups;
    day := Day(DaysOfWeek[i], FocusLabel(cfg.focusMap[i % |cfg.focusMap|]), exercises);
    assert BlocksDrawn(blocks, groups, equipment, cfg) && day.exercises == Concat(blocks);
  }

  /** Why the generator produced no routine: `min(None, 7)` raises a `TypeError` when the
      request has no day count, and a focus the focus table lacks raises a `KeyError`. */
  datatype GenerationError = DaysMissing | UnknownFocus(focus: string)

  /** Some day among the first `n` of the rotation has a focus the table lacks. */
  predicate FocusMissing(focusMap: seq<string>, n: int, muscleGroups: map<string, seq<string>>)
    requires 0 < |focusMap|
  {
    exists i :: 0 <= i < n && focusMap[i % |focusMap|] !in muscleGroups
  }

  /** `days` are the first `n` days of the rotation `cfg`, each made from the muscle groups
      the table gives its focus. */
  ghost predicate DaysGenerated(days: seq<Day>, cfg: RoutineConfig, n: int, muscleGroups: map<string, seq<string>>, equipment: string)
    requires 0 < |cfg.focusMap| && n <= |DaysOfWeek|
    requires GroupsInCatalog(muscleGroups)
  {
    && |days| == (if n < 0 then 0 else n)
    && forall i :: 0 <= i < |days| ==>
         cfg.focusMap[i % |cfg.focusMap|] in muscleGroups
         && DayGenerated(days[i], i, cfg, muscleGroups[cfg.focusMap[i % |cfg.focusMap|]], equipment)
  }

  /** `r` is what the generator makes of the request with the given focus table. */
  ghost predicate GeneratedFor(r: Routine, request: RoutineRequest, muscleGroups: map<string, seq<string>>)
    requires request.days.Some?
    requires GroupsInCatalog(muscleGroups)
  {
    var t := DetermineRoutineType(request.goals);
    var n := Min(request.days.value, 7);
    && r.routineName == "Rutina de " + Capitalize(t) + " - " + IntToString(n) + " días"
    && r.id == None && r.userId == request.userId && r.createdAt == None && r.updatedAt == None
    && DaysGenerated(r.days, RoutineTypes[t], n, muscleGroups, request.equipment)
  }

  /** The day loop of `create_initial_routine`: stops at the first focus the table lacks. */
  method GenerateDays(cfg: RoutineConfig, n: int, muscleGroups: map<string, seq<string>>, equipment: string)
    returns (result: Result<seq<Day>, GenerationError>)
    requires 0 < |cfg.focusMap| && n <= |DaysOfWeek|
    requires GroupsInCatalog(muscleGroups)
    ensures result.Failure? <==> FocusMissing(cfg.focusMap, n, muscleGroups)
    ensures result.Success? ==> DaysGenerated(result.value, cfg, n, muscleGroups, equipment)
  {
    var days: seq<Day> := [];
    var i := 0;
    while i < n
      invariant 0 <= i <= (if n < 0 then 0 else n) && |days| == i
      invariant forall j :: 0 <= j < i ==>
        cfg.focusMap[j % |cfg.focusMap|] in muscleGroups
        && DayGenerated(days[j], j, cfg, muscleGroups[cfg.focusMap[j % |cfg.focusMap|]], equipment)
    {
      var focus := cfg.focusMap[i % |cfg.focusMap|];
      if focus !in muscleGroups {
        return Failure(UnknownFocus(focus));
      }
      var day := GenerateDay(i, cfg, muscleGroups[focus], equipment);
      days := days + [day];
      i := i + 1;
    }
    return Success(days);
  }

  /** `create_initial_routine` with the focus-to-muscle-group table it looks foci up in. */
  method CreateInitialRoutine(request: RoutineRequest, muscleGroups: map<string, seq<string>>)
    returns (result: Result<Routine, GenerationError>)
    requires GroupsInCatalog(muscleGroups)
    ensures request.days.None? ==> result == Failure(DaysMissing)
    ensures request.days.Some? ==>
      (result.Failure? <==>
         FocusMissing(RoutineTypes[DetermineRoutineType(request.goals)].focusMap, Min(request.days.value, 7), muscleGroups))
    ensures result.Success? ==> request.days.Some? && GeneratedFor(result.value, request, muscleGroups)
  {
    var routineType := DetermineRoutineType(request.goals);
    if request.days.None? {
      return Failure(DaysMissing);
    }
    var daysCount := Min(request.days.value, 7);
    var routineName := "Rutina de " + Capitalize(routineType) + " - " + IntToString(daysCount) + " días";
    var days := GenerateDays(RoutineTypes[routineType], daysCount, muscleGroups, request.equipment);
    if days.Failure? {
      return Failure(days.error);
    }
    result := Success(NewRoutine(routineName, days.value, userId := request.userId));
  }

  /** The strength rotation's third focus, "piernas", is not a key of `muscle_group_map`, so
      every strength routine of three or more days fails with a `KeyError`. */
  lemma StrengthRotationMissesLegs(n: int)
    requires 3 <= n
    ensures FocusMissing(RoutineTypes["fuerza"].focusMap, n, MuscleGroupMap)
  {
    assert RoutineTypes["fuerza"].focusMap[2 % 3] == "piernas";
  }

  /** With the corrected table no focus of any rotation is missing, so the generator succeeds
      on every request that has a day count. */
  lemma CorrectedTableResolvesEveryDay(t: string, n: int)
    requires t in RoutineTypes && 0 < |RoutineTypes[t].focusMap|
    ensures !FocusMissing(RoutineTypes[t].focusMap, n, CorrectedMuscleGroupMap)
  {
    CorrectedTableCoversRotations();
  }

  /** The goals "fuerza" select the strength type. */
  lemma StrengthGoalSelectsStrength()
    ensures DetermineRoutineType("fuerza") == "fuerza"
  {
    var g := "fuerza";
    assert Lower(g) == g;
    NoMassKeyword();
    NoDefinitionKeyword();
    assert OccursAt(g, "fuerza", 0);
    ContainsIff(g, "fuerza");
    assert GoalKeywords[2].1[0] == "fuerza";
    assert FirstGoalMatch(g, 0) == 2;
  }

  lemma NoMassKeyword()
    ensures !MentionsAny("fuerza", GoalKeywords[0].1)
  {
    var g := "fuerza";
    MissingCharNotContained(g, "masa", 'm');
    MissingCharNotContained(g, "volumen", 'v');
    MissingCharNotContained(g, "hipertrofia", 'h');
    MissingCharNotContained(g, "crecer", 'c');
    MissingCharNotContained(g, "aumentar", 'm');
    MissingCharNotContained(g, "tamaño", 't');
  }

  lemma NoDefinitionKeyword()
    ensures !MentionsAny("fuerza", GoalKeywords[1].1)
  {
    var g := "fuerza";
    MissingCharNotContained(g, "definición", 'd');
    MissingCharNotContained(g, "definir", 'd');
    MissingCharNotContained(g, "marcar", 'm');
    MissingCharNotContained(g, "tonificar", 't');
  }

  /** A request for strength over three days finds no muscle groups for its third day: the
      generator answers it with a `KeyError` instead of a routine. */
  lemma StrengthRequestOfThreeDaysFails(request: RoutineRequest)
    requires request.goals == "fuerza" && request.days == Some(3)
    ensures FocusMissing(RoutineTypes[DetermineRoutineType(request.goals)].focusMap, Min(request.days.value, 7), MuscleGroupMap)
  {
    StrengthGoalSelectsStrength();
    StrengthRotationMissesLegs(3);
  }

  // ---------------------------------------------------------------------------------------
  // modify_routine

  /** Words asking for one exercise to be swapped, for exercises to be added and for the
      routine to be re-prescribed, tried in this order. */
  const ReplaceWords: seq<string> := ["reemplaza", "cambia", "sustituye"]
  const AddWords: seq<string> := ["agregar", "añadir", "más"]
  const RefocusWords: seq<string> := ["enfoque", "enfocar", "concentrar"]

  /** The prescription of an added exercise when its day has no exercise to copy it from. */
  const DefaultSets: int := 3
  const DefaultReps: string := "10-12"
  const DefaultRest: string := "60 seg"

  /** The (lower-cased) request names exercise `i` of day `d`. */
  predicate MentionedAt(days: seq<Day>, request: string, d: int, i: int) {
    0 <= d < |days| && 0 <= i < |days[d].exercises| && Contains(request, Lower(days[d].exercises[i].name))
  }

  /** Exercise `i` of day `d` is the first one the request names, days first, then positions. */
  ghost predicate FirstMentioned(days: seq<Day>, request: string, d: int, i: int) {
    && MentionedAt(days, request, d, i)
    && (forall d', i' :: 0 <= d' < d ==> !MentionedAt(days, request, d', i'))
    && (forall i' :: 0 <= i' < i ==> !MentionedAt(days, request, d, i'))
  }

  ghost predicate NoneMentioned(days: seq<Day>, request: string) {
    forall d, i :: !MentionedAt(days, request, d, i)
  }

  /** The scan for the exercise to replace: the first exercise, in day order and then in
      position order, whose lower-cased name the request contains. */
  method FindMentionedExercise(days: seq<Day>, request: string) returns (pos: Option<(nat, nat)>)
    ensures pos.None? ==> NoneMentioned(days, request)
    ensures pos.Some? ==> FirstMentioned(days, request, pos.value.0, pos.value.1)
  {
    var d := 0;
    while d < |days|
      invariant 0 <= d <= |days|
      invariant forall d', i' :: 0 <= d' < d ==> !MentionedAt(days, request, d', i')
    {
      var i := 0;
      while i < |days[d].exercises|
        invariant 0 <= i <= |days[d].exercises|
        invariant forall i' :: 0 <= i' < i ==> !MentionedAt(days, request, d, i')
      {
        if Contains(request, Lower(days[d].exercises[i].name)) {
          return Some((d, i));
        }
        i := i + 1;
      }
      d := d + 1;
    }
    return None;
  }

  /** Some entry of `items` has the given name, ignoring case. */
  predicate HasNamed(items: seq<CatalogItem>, name: string) {
    exists j :: 0 <= j < |items| && Lower(items[j].name) == Lower(name)
  }

  /** The index in catalog order of the first group, at or after `k`, holding an entry with
      the given name, or -1. */
  function GroupIndexOf(name: string, k: nat): (g: int)
    requires k <= |CatalogGroups|
    requires forall j :: 0 <= j < |CatalogGroups| ==> CatalogGroups[j] in ExerciseCatalog
    decreases |CatalogGroups| - k
    ensures g == -1 || (k <= g < |CatalogGroups| && HasNamed(ExerciseCatalog[CatalogGroups[g]], name))
    ensures forall j :: k <= j < (if g == -1 then |CatalogGroups| else g) ==> !HasNamed(ExerciseCatalog[CatalogGroups[j]], name)
  {
    if k == |CatalogGroups| then -1
    else if HasNamed(ExerciseCatalog[CatalogGroups[k]], name) then k
    else GroupIndexOf(name, k + 1)
  }

  lemma GroupsAreCatalogued()
    ensures forall j :: 0 <= j < |CatalogGroups| ==> CatalogGroups[j] in ExerciseCatalog
  {
    CatalogKeys();
  }

  /** The group scan of the replacement: `GroupIndexOf`, looked for group by group. */
  method FindGroupOf(name: string) returns (g: int)
    requires forall j :: 0 <= j < |CatalogGroups| ==> CatalogGroups[j] in ExerciseCatalog
    ensures g == GroupIndexOf(name, 0)
  {
    var k := 0;
    while k < |CatalogGroups|
      invariant 0 <= k <= |CatalogGroups|
      invariant GroupIndexOf(name, k) == GroupIndexOf(name, 0)
    {
      var found := ScanGroup(ExerciseCatalog[CatalogGroups[k]], name);
      if found {
        return k;
      }
      k := k + 1;
    }
    return -1;
  }

  /** The inner scan of `FindGroupOf`: the entries of one group, in order, until one has
      the name. */
  method ScanGroup(items: seq<CatalogItem>, name: string) returns (found: bool)
    ensures found == HasNamed(items, name)
  {
    var j := 0;
    while j < |items|
      invariant 0 <= j <= |items|
      invariant forall j' :: 0 <= j' < j ==> Lower(items[j'].name) != Lower(name)
    {
      if Lower(items[j].name) == Lower(name) {
        return true;
      }
      j := j + 1;
    }
    return false;
  }

  /** The entries of `items` not named `name`, ignoring case, in order. */
  function OtherThan(items: seq<CatalogItem>, name: string): (r: seq<CatalogItem>)
    ensures forall x :: x in r <==> x in items && Lower(x.name) != Lower(name)
  {
    if items == [] then []
    else
      var last := items[|items| - 1];
      assert items == items[..|items| - 1] + [last];
      OtherThan(items[..|items| - 1], name) + (if Lower(last.name) != Lower(name) then [last] else [])
  }

  /** The entries of `items` whose lower-cased name is not among `names`, in order. */
  function NotAmong(items: seq<CatalogItem>, names: seq<string>): (r: seq<CatalogItem>)
    ensures forall x :: x in r <==> x in items && Lower(x.name) !in names
    ensures DistinctNames(items) ==> DistinctNames(r)
  {
    if items == [] then []
    else
      var last := items[|items| - 1];
      assert items == items[..|items| - 1] + [last];
      var init := NotAmong(items[..|items| - 1], names);
      assert DistinctNames(items) ==> forall x :: x in init ==> x.name != last.name;
      init + (if Lower(last.name) !in names then [last] else [])
  }

  /** The lower-cased names of the exercises. */
  function LowerNames(exs: seq<Exercise>): (r: seq<string>)
    ensures |r| == |exs| && forall i :: 0 <= i < |exs| ==> r[i] == Lower(exs[i].name)
  {
    seq(|exs|, i requires 0 <= i < |exs| => Lower(exs[i].name))
  }

  /** A filter with "todo" keeps every entry: "todo" is a full-gym word. */
  lemma EverythingFilterKeepsAll(items: seq<CatalogItem>)
    ensures EquipmentFilter(items, "todo") == items
  {
    assert Lower("todo") == "todo";
    assert OccursAt("todo", "todo", 0);
    ContainsIff("todo", "todo");
    assert FullGymWords[0] == "todo";
  }

  /** The index of the first key the (lower-cased) request contains, or -1. */
  function FirstKeyMentioned(keys: seq<string>, request: string, k: nat): (r: int)
    requires k <= |keys|
    decreases |keys| - k
    ensures r == -1 || (k <= r < |keys| && Contains(request, keys[r]))
    ensures forall j :: k <= j < (if r == -1 then |keys| else r) ==> !Contains(request, keys[j])
  {
    if k == |keys| then -1
    else if Contains(request, keys[k]) then k
    else FirstKeyMentioned(keys, request, k + 1)
  }

  /** The scan for a mentioned key, in key order. */
  method FindKeyMentioned(keys: seq<string>, request: string) returns (r: int)
    ensures r == FirstKeyMentioned(keys, request, 0)
  {
    var k := 0;
    while k < |keys|
      invariant 0 <= k <= |keys|
      invariant FirstKeyMentioned(keys, request, k) == FirstKeyMentioned(keys, request, 0)
    {
      if Contains(request, keys[k]) {
        return k;
      }
      k := k + 1;
    }
    return -1;
  }

  /** The scan for the target day: the first day whose lower-cased name the request contains. */
  method FindDayMentioned(days: seq<Day>, request: string) returns (r: int)
    ensures r == FirstKeyMentioned(DayNames(days), request, 0)
  {
    r := FindKeyMentioned(DayNames(days), request);
  }

  /** The lower-cased names of the days. */
  function DayNames(days: seq<Day>): (r: seq<string>)
    ensures |r| == |days| && forall d :: 0 <= d < |days| ==> r[d] == Lower(days[d].dayName)
  {
    seq(|days|, d requires 0 <= d < |days| => Lower(days[d].dayName))
  }

  /** The routine with exercise `i` of day `d` replaced by `e`. */
  function WithExercise(routine: Routine, d: nat, i: nat, e: Exercise): Routine
    requires d < |routine.days| && i < |routine.days[d].exercises|
  {
    var day := routine.days[d];
    routine.(days := routine.days[d := day.(exercises := day.exercises[i := e])])
  }

  /** The routine with day `d`'s exercises set to `exs`. */
  function WithExercises(routine: Routine, d: nat, exs: seq<Exercise>): Routine
    requires d < |routine.days|
  {
    routine.(days := routine.days[d := routine.days[d].(exercises := exs)])
  }

  /** What a swap request does: the first named exercise, when its catalog group is known and
      the group has another entry, becomes one of those other entries with the old sets, reps
      and rest; otherwise nothing changes. */
  ghost predicate SwappedAsAsked(current: Routine, r: Routine, request: string)
  {
    && (NoneMentioned(current.days, request) ==> r == current)
    && forall d, i :: FirstMentioned(current.days, request, d, i) ==> SwappedAt(current, r, d, i)
  }

  /** The outcome of a swap aimed at exercise `i` of day `d`. */
  ghost predicate SwappedAt(current: Routine, r: Routine, d: nat, i: nat)
    requires d < |current.days| && i < |current.days[d].exercises|
  {
    GroupsAreCatalogued();
    var prev := current.days[d].exercises[i];
    var g := GroupIndexOf(prev.name, 0);
    && (g == -1 ==> r == current)
    && (g != -1 ==>
          var others := OtherThan(ExerciseCatalog[CatalogGroups[g]], prev.name);
          && (others == [] ==> r == current)
          && (others != [] ==>
                && |r.days| == |current.days| && |r.days[d].exercises| == |current.days[d].exercises|
                && var e := r.days[d].exercises[i];
                   && r == WithExercise(current, d, i, e)
                   && ItemOf(e) in others
                   && e.sets == prev.sets && e.reps == prev.reps && e.rest == prev.rest))
  }

  /** Only one exercise is the first one named. */
  lemma FirstMentionedUnique(days: seq<Day>, request: string, d: int, i: int, d': int, i': int)
    requires FirstMentioned(days, request, d, i) && FirstMentioned(days, request, d', i')
    ensures d == d' && i == i'
  {
  }

  /** The prescription of an exercise added to `day`: that of its first exercise, or the
      defaults when it has none. */
  predicate ReferencePrescribed(e: Exercise, day: Day) {
    if day.exercises != [] then
      e.sets == day.exercises[0].sets && e.reps == day.exercises[0].reps && e.rest == day.exercises[0].rest
    else
      e.sets == DefaultSets && e.reps == DefaultReps && e.rest == DefaultRest
  }

  /** What an add request does: with a group and a day both named, one or two entries of the
      group not already on that day are appended to it; otherwise nothing changes. */
  ghost predicate AddedAsAsked(current: Routine, r: Routine, request: string)
  {
    GroupsAreCatalogued();
    var gk := FirstKeyMentioned(CatalogGroups, request, 0);
    var dk := FirstKeyMentioned(DayNames(current.days), request, 0);
    && (gk == -1 || dk == -1 ==> r == current)
    && (gk != -1 && dk != -1 ==> AddedToDay(current, r, CatalogGroups[gk], dk))
  }

  /** The addition once the group and the day are known: one or two entries of the group
      not already on day `dk` are appended to it, or nothing changes when there are none. */
  ghost predicate AddedToDay(current: Routine, r: Routine, group: string, dk: nat)
    requires group in ExerciseCatalog && dk < |current.days|
  {
    var day := current.days[dk];
    var unused := NotAmong(ExerciseCatalog[group], LowerNames(day.exercises));
    && (unused == [] ==> r == current)
    && (unused != [] ==>
          && |r.days| == |current.days|
          && r == WithExercises(current, dk, r.days[dk].exercises)
          && day.exercises <= r.days[dk].exercises
          && var added := r.days[dk].exercises[|day.exercises|..];
             && (|added| == 1 || |added| == Min(2, |unused|))
             && ExerciseNamesDistinct(added)
             && forall e :: e in added ==> ItemOf(e) in unused && ReferencePrescribed(e, day))
  }

  /** `day` with every exercise given the prescription of `cfg`. */
  predicate Represcribed(before: Day, after: Day, cfg: RoutineConfig) {
    && after.dayName == before.dayName && after.focus == before.focus
    && |after.exercises| == |before.exercises|
    && forall i :: 0 <= i < |before.exercises| ==>
         var e := after.exercises[i];
         e.name == before.exercises[i].name && e.equipment == before.exercises[i].equipment && Prescribed(e, cfg)
  }

  /** What a refocus request does: with a routine type named, the routine is renamed after it
      and every exercise takes its prescription; otherwise nothing changes. */
  ghost predicate RefocusedAsAsked(current: Routine, r: Routine, request: string)
  {
    RoutineTypeKeys();
    var tk := FirstKeyMentioned(RoutineTypeNames, request, 0);
    && (tk == -1 ==> r == current)
    && (tk != -1 ==>
          var t := RoutineTypeNames[tk];
          && r == current.(routineName := r.routineName, days := r.days)
          && r.routineName == "Rutina de " + Capitalize(t) + " - " + IntToString(|current.days|) + " días"
          && |r.days| == |current.days|
          && forall d :: 0 <= d < |r.days| ==> Represcribed(current.days[d], r.days[d], RoutineTypes[t]))
  }

  /** What `modify_routine` makes of `current`: at most one of a swap, an addition or a
      re-prescription, chosen by the first kind of request word the lower-cased request
      contains; identity, timestamps and the day layout are kept. */
  ghost predicate ModifiedAsAsked(current: Routine, r: Routine, userRequest: string) {
    var q := Lower(userRequest);
    && r.id == current.id && r.userId == current.userId
    && r.createdAt == current.createdAt && r.updatedAt == current.updatedAt
    && |r.days| == |current.days|
    && (forall d :: 0 <= d < |r.days| ==> r.days[d].dayName == current.days[d].dayName && r.days[d].focus == current.days[d].focus)
    && (MentionsAny(q, ReplaceWords) ==> SwappedAsAsked(current, r, q))
    && (!MentionsAny(q, ReplaceWords) && MentionsAny(q, AddWords) ==> AddedAsAsked(current, r, q))
    && (!MentionsAny(q, ReplaceWords) && !MentionsAny(q, AddWords) && MentionsAny(q, RefocusWords) ==> RefocusedAsAsked(current, r, q))
    && (!MentionsAny(q, ReplaceWords) && !MentionsAny(q, AddWords) && !MentionsAny(q, RefocusWords) ==> r == current)
  }

  /** `modify_routine`. It edits a deep copy: `current` is a value here and stays as it was. */
  method ModifyRoutine(current: Routine, userRequest: string) returns (r: Routine)
    ensures ModifiedAsAsked(current, r, userRequest)
  {
    var request := Lower(userRequest);
    if MentionsAny(request, ReplaceWords) {
      r := SwapExercise(current, request);
    } else if MentionsAny(request, AddWords) {
      r := AddExercises(current, request);
    } else if MentionsAny(request, RefocusWords) {
      r := Refocus(current, request);
    } else {
      r := current;
    }
  }

  /** Case 1 of `modify_routine`. */
  method SwapExercise(current: Routine, request: string) returns (r: Routine)
    ensures SwappedAsAsked(current, r, request)
    ensures r.id == current.id && r.userId == current.userId && r.routineName == current.routineName
    ensures r.createdAt == current.createdAt && r.updatedAt == current.updatedAt
    ensures |r.days| == |current.days|
    ensures forall d :: 0 <= d < |r.days| ==> r.days[d].dayName == current.days[d].dayName && r.days[d].focus == current.days[d].focus
  {
    var pos := FindMentionedExercise(current.days, request);
    if pos.None? {
      return current;
    }
    var (d, i) := pos.value;
    r := SwapAt(current, d, i);
    forall d', i' | FirstMentioned(current.days, request, d', i') ensures SwappedAt(current, r, d', i') {
      FirstMentionedUnique(current.days, request, d, i, d', i');
    }
  }

  /** The replacement step of case 1, once the exercise to replace is known. */
  method SwapAt(current: Routine, d: nat, i: nat) returns (r: Routine)
    requires d < |current.days| && i < |current.days[d].exercises|
    ensures SwappedAt(current, r, d, i)
    ensures r.id == current.id && r.userId == current.userId && r.routineName == current.routineName
    ensures r.createdAt == current.createdAt && r.updatedAt == current.updatedAt
    ensures |r.days| == |current.days|
    ensures forall d :: 0 <= d < |r.days| ==> r.days[d].dayName == current.days[d].dayName && r.days[d].focus == current.days[d].focus
  {
    r := current;
    var prev := current.days[d].exercises[i];
    GroupsAreCatalogued();
    var g := FindGroupOf(prev.name);
    if g == -1 {
      return;
    }
    var items := ExerciseCatalog[CatalogGroups[g]];
    var pool := FilterByEquipment(items, "todo");
    EverythingFilterKeepsAll(items);
    var others := OtherThan(pool, prev.name);
    if others == [] {
      return;
    }
    var j :| 0 <= j < |others|;
    var e := Exercise(others[j].name, prev.sets, prev.reps, prev.rest, others[j].equipment);
    assert ItemOf(e) == others[j];
    r := WithExercise(current, d, i, e);
    assert r.days[d].exercises[i] == e;
  }

  /** Case 2 of `modify_routine`. */
  method AddExercises(current: Routine, request: string) returns (r: Routine)
    ensures AddedAsAsked(current, r, request)
    ensures r.id == current.id && r.userId == current.userId && r.routineName == current.routineName
    ensures r.createdAt == current.createdAt && r.updatedAt == current.updatedAt
    ensures |r.days| == |current.days|
    ensures forall d :: 0 <= d < |r.days| ==> r.days[d].dayName == current.days[d].dayName && r.days[d].focus == current.days[d].focus
  {
    r := current;
    var gk := FindKeyMentioned(CatalogGroups, request);
    var dk := FindDayMentioned(current.days, request);
    if gk == -1 || dk == -1 {
      return;
    }
    GroupsAreCatalogued();
    r := AddToDay(current, CatalogGroups[gk], dk);
  }

  /** `modify_routine`'s addition once the group and the day are found. */
  method AddToDay(current: Routine, group: string, dk: nat) returns (r: Routine)
    requires group in ExerciseCatalog && dk < |current.days|
    ensures AddedToDay(current, r, group, dk)
    ensures r.id == current.id && r.userId == current.userId && r.routineName == current.routineName
    ensures r.createdAt == current.createdAt && r.updatedAt == current.updatedAt
    ensures |r.days| == |current.days|
    ensures forall d :: 0 <= d < |r.days| ==> r.days[d].dayName == current.days[d].dayName && r.days[d].focus == current.days[d].focus
  {
    r := current;
    var day := current.days[dk];
    var currentNames := LowerNames(day.exercises);
    var items := ExerciseCatalog[group];
    var pool := FilterByEquipment(items, "todo");
    EverythingFilterKeepsAll(items);
    var unused := NotAmong(pool, currentNames);
    var upTo :| 1 <= upTo <= 2;
    var numToAdd := Min(upTo, |unused|);
    if unused == [] || numToAdd <= 0 {
      return;
    }
    CatalogNamesDistinct(group);
    var selected := Sample(unused, numToAdd);
    var added := AppendWithReference(day, selected);
    r := WithExercises(current, dk, day.exercises + added);
    assert r.days[dk].exercises[|day.exercises|..] == added;
  }

  /** The append loop of case 2: each selected entry becomes an exercise with the day's
      reference prescription. */
  method AppendWithReference(day: Day, selected: seq<CatalogItem>) returns (added: seq<Exercise>)
    ensures |added| == |selected|
    ensures forall k :: 0 <= k < |added| ==> ItemOf(added[k]) == selected[k] && ReferencePrescribed(added[k], day)
  {
    added := [];
    var k := 0;
    while k < |selected|
      invariant 0 <= k <= |selected| && |added| == k
      invariant forall a :: 0 <= a < k ==> ItemOf(added[a]) == selected[a] && ReferencePrescribed(added[a], day)
    {
      var ex := selected[k];
      var e := if day.exercises != [] then
          Exercise(ex.name, day.exercises[0].sets, day.exercises[0].reps, day.exercises[0].rest, ex.equipment)
        else
          Exercise(ex.name, DefaultSets, DefaultReps, DefaultRest, ex.equipment);
      added := added + [e];
      k := k + 1;
    }
  }

  /** Case 3 of `modify_routine`. */
  method Refocus(current: Routine, request: string) returns (r: Routine)
    ensures RefocusedAsAsked(current, r, request)
    ensures r.id == current.id && r.userId == current.userId
    ensures r.createdAt == current.createdAt && r.updatedAt == current.updatedAt
    ensures |r.days| == |current.days|
    ensures forall d :: 0 <= d < |r.days| ==> r.days[d].dayName == current.days[d].dayName && r.days[d].focus == current.days[d].focus
  {
    r := current;
    var tk := FindKeyMentioned(RoutineTypeNames, request);
    if tk == -1 {
      return;
    }
    RoutineTypeKeys();
    var t := RoutineTypeNames[tk];
    var cfg := RoutineTypes[t];
    var days: seq<Day> := [];
    var d := 0;
    while d < |current.days|
      invariant 0 <= d <= |current.days| && |days| == d
      invariant forall d' :: 0 <= d' < d ==> Represcribed(current.days[d'], days[d'], cfg)
    {
      var day := current.days[d];
      var exs: seq<Exercise> := [];
      var i := 0;
      while i < |day.exercises|
        invariant 0 <= i <= |day.exercises| && |exs| == i
        invariant forall i' :: 0 <= i' < i ==>
          exs[i'].name == day.exercises[i'].name && exs[i'].equipment == day.exercises[i'].equipment && Prescribed(exs[i'], cfg)
      {
        exs := exs + [day.exercises[i].(sets := cfg.sets, reps := cfg.reps, rest := cfg.rest)];
        i := i + 1;
      }
      days := days + [day.(exercises := exs)];
      d := d + 1;
    }
    r := current.(routineName := "Rutina de " + Capitalize(t) + " - " + IntToString(|current.days|) + " días", days := days);
  }

  /** Re-prescribing twice for the same request gives the routine of the first time. */
  lemma RefocusIsIdempotent(current: Routine, once: Routine, twice: Routine, request: string)
    requires RefocusedAsAsked(current, once, request) && RefocusedAsAsked(once, twice, request)
    ensures twice == once
  {
    RoutineTypeKeys();
    var tk := FirstKeyMentioned(RoutineTypeNames, request, 0);
    if tk != -1 {
      var cfg := RoutineTypes[RoutineTypeNames[tk]];
      forall d | 0 <= d < |once.days| ensures twice.days[d] == once.days[d] {
        assert Represcribed(current.days[d], once.days[d], cfg);
        assert Represcribed(once.days[d], twice.days[d], cfg);
        assert twice.days[d].exercises == once.days[d].exercises;
      }
      assert twice.days == once.days;
    }
  }

  // ---------------------------------------------------------------------------------------
  // explain_routine_changes

  const ExplanationHeader: string := "He modificado tu rutina según tu solicitud:\n\n"
  /** The note for a comparison that finds nothing. Its opening word is written apart because
      that word is what tells the note from a change line, which opens with "- ": the proof
      of `ExplainRoutineChanges` reads the note's first character off it. */
  const NoChangeNote: string :=
    "No" + " se detectaron cambios significativos en la rutina. Por favor, sé más específico con tu solicitud."

  function RenameLine(routineName: string): string {
    "- Cambié el enfoque de la rutina a " + routineName + "\n"
  }

  function AddedLine(dayName: string, names: seq<string>): string {
    "- " + dayName + ": Añadí " + Join(names, ", ") + "\n"
  }

  function ReplacedLine(dayName: string, gone: string, substitute: string): string {
    "- " + dayName + ": Reemplacé " + gone + " por " + substitute + "\n"
  }

  function AdjustedLine(dayName: string, before: Exercise, after: Exercise): string {
    "- " + dayName + ": Ajusté " + before.name + " de " + IntToString(before.sets) + "x" + before.reps
      + " a " + IntToString(after.sets) + "x" + after.reps + "\n"
  }

  /** The names of the exercises, as a set. */
  function NameSet(exs: seq<Exercise>): set<string> {
    set e | e in exs :: e.name
  }

  function AddedNames(before: Day, after: Day): set<string> {
    NameSet(after.exercises) - NameSet(before.exercises)
  }

  function RemovedNames(before: Day, after: Day): set<string> {
    NameSet(before.exercises) - NameSet(after.exercises)
  }

  /** Position `i` holds the same exercise name on both sides with other sets or reps. */
  predicate Adjusted(before: Day, after: Day, i: int) {
    && 0 <= i < |before.exercises| && i < |after.exercises|
    && before.exercises[i].name == after.exercises[i].name
    && (before.exercises[i].sets != after.exercises[i].sets || before.exercises[i].reps != after.exercises[i].reps)
  }

  /** The comparison of two days finds something to say. */
  ghost predicate DayReportable(before: Day, after: Day) {
    AddedNames(before, after) != {} || exists i :: Adjusted(before, after, i)
  }

  /** The comparison of two routines finds something to say: a new name, or a day, among those
      both routines have, with a new exercise name or an adjusted exercise. */
  ghost predicate Reportable(before: Routine, after: Routine) {
    || before.routineName != after.routineName
    || exists d :: 0 <= d < |before.days| && d < |after.days| && DayReportable(before.days[d], after.days[d])
  }

  /** `order` lists the elements of `s` once each. */
  predicate IsOrderOf(order: seq<string>, s: set<string>) {
    && (forall x :: x in order ==> x in s)
    && (forall x :: x in s ==> x in order)
    && forall i, j :: 0 <= i < j < |order| ==> order[i] != order[j]
  }

  /** The iteration order of a Python set, which the model leaves open. */
  method SetOrder(s: set<string>) returns (order: seq<string>)
    ensures IsOrderOf(order, s)
  {
    order := [];
    var rest := s;
    while rest != {}
      invariant rest <= s
      invariant forall x :: x in order <==> x in s && x !in rest
      invariant forall i, j :: 0 <= i < j < |order| ==> order[i] != order[j]
      decreases |rest|
    {
      var x :| x in rest;
      order := order + [x];
      rest := rest - {x};
    }
  }

  /** The index of the first exercise at or after `k` whose name is in `names`, or -1. */
  function FirstNamedIn(exs: seq<Exercise>, names: set<string>, k: nat): (r: int)
    requires k <= |exs|
    decreases |exs| - k
    ensures r == -1 || (k <= r < |exs| && exs[r].name in names)
    ensures forall j :: k <= j < (if r == -1 then |exs| else r) ==> exs[j].name !in names
  {
    if k == |exs| then -1
    else if exs[k].name in names then k
    else FirstNamedIn(exs, names, k + 1)
  }

  /** The scan for a replacement partner: the first exercise of the day whose name is new. */
  method FindNamedIn(exs: seq<Exercise>, names: set<string>) returns (r: int)
    ensures r == FirstNamedIn(exs, names, 0)
  {
    var k := 0;
    while k < |exs|
      invariant 0 <= k <= |exs|
      invariant FirstNamedIn(exs, names, k) == FirstNamedIn(exs, names, 0)
    {
      if exs[k].name in names {
        return k;
      }
      k := k + 1;
    }
    return -1;
  }

  /** A text containing `x` still contains it once extended. */
  lemma ContainsExtended(a: string, b: string, x: string)
    requires Contains(a, x)
    ensures Contains(a + b, x)
  {
    ContainsIff(a, x);
    var i :| OccursAt(a, x, i);
    assert (a + b)[i..i + |x|] == a[i..i + |x|];
    assert OccursAt(a + b, x, i);
    ContainsIff(a + b, x);
  }

  /** A text extended by `x` contains `x`. */
  lemma ContainsAppended(a: string, x: string)
    ensures Contains(a + x, x)
  {
    ContainsInfix(a, x, []);
    assert a + x + [] == a + x;
  }

  /** A text contains whatever any of its parts contains. */
  lemma ContainsWithin(a: string, b: string, c: string, x: string)
    requires Contains(b, x)
    ensures Contains(a + b + c, x)
  {
    ContainsIff(b, x);
    var i :| OccursAt(b, x, i);
    assert (a + b + c)[|a| + i..|a| + i + |x|] == b[i..i + |x|];
    assert OccursAt(a + b + c, x, |a| + i);
    ContainsIff(a + b + c, x);
  }

  /** The index of the replacement partner on the later day, or -1. */
  function Partner(before: Day, after: Day): int {
    FirstNamedIn(after.exercises, AddedNames(before, after), 0)
  }

  /** `text` carries every line the comparison of the two days calls for: the added names in
      some order, one replacement line per removed name paired with the first new exercise,
      one adjustment line per adjusted position. */
  ghost predicate DayReported(before: Day, after: Day, text: string) {
    && (AddedNames(before, after) != {} ==>
          exists order :: IsOrderOf(order, AddedNames(before, after)) && Contains(text, AddedLine(before.dayName, order)))
    && (forall gone :: gone in RemovedNames(before, after) && Partner(before, after) != -1 ==>
          Contains(text, ReplacedLine(before.dayName, gone, after.exercises[Partner(before, after)].name)))
    && (forall i :: Adjusted(before, after, i) ==>
          Contains(text, AdjustedLine(before.dayName, before.exercises[i], after.exercises[i])))
  }

  /** A report stays a report when text is added around it. */
  lemma DayReportedWithin(before: Day, after: Day, a: string, text: string, c: string)
    requires DayReported(before, after, text)
    ensures DayReported(before, after, a + text + c)
  {
    if AddedNames(before, after) != {} {
      var order :| IsOrderOf(order, AddedNames(before, after)) && Contains(text, AddedLine(before.dayName, order));
      ContainsWithin(a, text, c, AddedLine(before.dayName, order));
    }
    forall gone | gone in RemovedNames(before, after) && Partner(before, after) != -1
      ensures Contains(a + text + c, ReplacedLine(before.dayName, gone, after.exercises[Partner(before, after)].name))
    {
      ContainsWithin(a, text, c, ReplacedLine(before.dayName, gone, after.exercises[Partner(before, after)].name));
    }
    forall i | Adjusted(before, after, i)
      ensures Contains(a + text + c, AdjustedLine(before.dayName, before.exercises[i], after.exercises[i]))
    {
      ContainsWithin(a, text, c, AdjustedLine(before.dayName, before.exercises[i], after.exercises[i]));
    }
  }

  /** The added-exercises line stays in the day's text when the other parts follow it. */
  lemma AddedLineKept(before: Day, after: Day, addedPart: string, rest: string)
    requires AddedNames(before, after) != {} ==>
      exists order :: IsOrderOf(order, AddedNames(before, after)) && addedPart == AddedLine(before.dayName, order)
    ensures AddedNames(before, after) != {} ==>
      exists order :: IsOrderOf(order, AddedNames(before, after)) && Contains(addedPart + rest, AddedLine(before.dayName, order))
  {
    if AddedNames(before, after) != {} {
      var order :| IsOrderOf(order, AddedNames(before, after)) && addedPart == AddedLine(before.dayName, order);
      ContainsInfix([], addedPart, rest);
      assert [] + addedPart + rest == addedPart + rest;
    }
  }

  /** The replacement lines stay in the day's text between the other parts. */
  lemma ReplacedLinesKept(before: Day, after: Day, a: string, replacedPart: string, c: string)
    requires forall gone :: gone in RemovedNames(before, after) && Partner(before, after) != -1 ==>
      Contains(replacedPart, ReplacedLine(before.dayName, gone, after.exercises[Partner(before, after)].name))
    ensures forall gone :: gone in RemovedNames(before, after) && Partner(before, after) != -1 ==>
      Contains(a + replacedPart + c, ReplacedLine(before.dayName, gone, after.exercises[Partner(before, after)].name))
  {
    forall gone | gone in RemovedNames(before, after) && Partner(before, after) != -1
      ensures Contains(a + replacedPart + c, ReplacedLine(before.dayName, gone, after.exercises[Partner(before, after)].name))
    {
      ContainsWithin(a, replacedPart, c, ReplacedLine(before.dayName, gone, after.exercises[Partner(before, after)].name));
    }
  }

  /** The adjustment lines stay in the day's text after the other parts. */
  lemma AdjustedLinesKept(before: Day, after: Day, a: string, adjustedPart: string)
    requires forall i :: Adjusted(before, after, i) ==>
      Contains(adjustedPart, AdjustedLine(before.dayName, before.exercises[i], after.exercises[i]))
    ensures forall i :: Adjusted(before, after, i) ==>
      Contains(a + adjustedPart, AdjustedLine(before.dayName, before.exercises[i], after.exercises[i]))
  {
    forall i | Adjusted(before, after, i)
      ensures Contains(a + adjustedPart, AdjustedLine(before.dayName, before.exercises[i], after.exercises[i]))
    {
      ContainsWithin(a, adjustedPart, [], AdjustedLine(before.dayName, before.exercises[i], after.exercises[i]));
      assert a + adjustedPart + [] == a + adjustedPart;
    }
  }

  /** The three parts of a day's text, each holding its own lines, report the day. */
  lemma PartsReported(before: Day, after: Day, addedPart: string, replacedPart: string, adjustedPart: string)
    requires AddedNames(before, after) != {} ==>
      exists order :: IsOrderOf(order, AddedNames(before, after)) && addedPart == AddedLine(before.dayName, order)
    requires forall gone :: gone in RemovedNames(before, after) && Partner(before, after) != -1 ==>
      Contains(replacedPart, ReplacedLine(before.dayName, gone, after.exercises[Partner(before, after)].name))
    requires forall i :: Adjusted(before, after, i) ==>
      Contains(adjustedPart, AdjustedLine(before.dayName, before.exercises[i], after.exercises[i]))
    ensures DayReported(before, after, addedPart + replacedPart + adjustedPart)
  {
    assert addedPart + (replacedPart + adjustedPart) == addedPart + replacedPart + adjustedPart;
    AddedLineKept(before, after, addedPart, replacedPart + adjustedPart);
    ReplacedLinesKept(before, after, addedPart, replacedPart, adjustedPart);
    AdjustedLinesKept(before, after, addedPart + replacedPart, adjustedPart);
  }

  /** The lines for one pair of days; empty exactly when there is nothing to report. */
  method ExplainDay(before: Day, after: Day) returns (text: string)
    ensures text == [] <==> !DayReportable(before, after)
    ensures text != [] ==> text[0] == '-'
    ensures DayReported(before, after, text)
  {
    var addedPart := AddedPart(before, after);
    var replacedPart := ReplacedPart(before, after);
    var adjustedPart := AdjustedPart(before, after);
    text := addedPart + replacedPart + adjustedPart;
    if addedPart == [] {
      assert text == adjustedPart;
    } else {
      assert text[0] == addedPart[0];
    }
    PartsReported(before, after, addedPart, replacedPart, adjustedPart);
  }

  /** What `explain_routine_changes` says about two routines: the header, then a line for a
      new routine name and the lines of each pair of days the two routines share; the
      no-change note when there are none. */
  ghost predicate ExplainsChanges(before: Routine, after: Routine, explanation: string) {
    && ExplanationHeader <= explanation
    && (explanation == ExplanationHeader + NoChangeNote <==> !Reportable(before, after))
    && (before.routineName != after.routineName ==> ExplanationHeader + RenameLine(after.routineName) <= explanation)
    && (forall d :: 0 <= d < |before.days| && d < |after.days| ==> DayReported(before.days[d], after.days[d], explanation))
  }

  /** `explain_routine_changes`; the request text plays no part. */
  method ExplainRoutineChanges(before: Routine, after: Routine, userRequest: string) returns (explanation: string)
    ensures ExplainsChanges(before, after, explanation)
  {
    var head := ExplanationHeader;
    if before.routineName != after.routineName {
      head := head + RenameLine(after.routineName);
    }
    var body := ExplainDays(before, after);
    forall d | 0 <= d < |before.days| && d < |after.days|
      ensures DayReported(before.days[d], after.days[d], head + body)
    {
      DayReportedWithin(before.days[d], after.days[d], head, body, []);
      assert head + body + [] == head + body;
    }
    explanation := head + body;
    assert ExplanationHeader <= head;
    assert NoChangeNote[0] == 'N';
    if explanation == ExplanationHeader {
      explanation := explanation + NoChangeNote;
    } else {
      assert explanation[|ExplanationHeader|] == '-';
    }
  }

  /** Appending the lines of day `d` keeps the reports of the earlier days and adds its own. */
  lemma ReportsExtended(before: Routine, after: Routine, d: nat, body: string, text: string)
    requires d < |before.days| && d < |after.days|
    requires forall d' :: 0 <= d' < d ==> DayReported(before.days[d'], after.days[d'], body)
    requires DayReported(before.days[d], after.days[d], text)
    ensures forall d' :: 0 <= d' <= d ==> DayReported(before.days[d'], after.days[d'], body + text)
  {
    forall d' | 0 <= d' < d ensures DayReported(before.days[d'], after.days[d'], body + text) {
      DayReportedWithin(before.days[d'], after.days[d'], [], body, text);
      assert [] + body + text == body + text;
    }
    DayReportedWithin(before.days[d], after.days[d], body, text, []);
    assert body + text + [] == body + text;
  }

  /** The day-by-day lines of the explanation, for the pairs of days both routines have. */
  method ExplainDays(before: Routine, after: Routine) returns (body: string)
    ensures body == [] <==> forall d :: 0 <= d < |before.days| && d < |after.days| ==> !DayReportable(before.days[d], after.days[d])
    ensures body != [] ==> body[0] == '-'
    ensures forall d :: 0 <= d < |before.days| && d < |after.days| ==> DayReported(before.days[d], after.days[d], body)
  {
    body := "";
    var d := 0;
    while d < |before.days| && d < |after.days|
      invariant 0 <= d <= |before.days| && d <= |after.days|
      invariant body == [] <==> forall d' :: 0 <= d' < d ==> !DayReportable(before.days[d'], after.days[d'])
      invariant body != [] ==> body[0] == '-'
      invariant forall d' :: 0 <= d' < d ==> DayReported(before.days[d'], after.days[d'], body)
    {
      var text := ExplainDay(before.days[d], after.days[d]);
      ReportsExtended(before, after, d, body, text);
      if body == [] && text != [] {
        assert (body + text)[0] == text[0];
      }
      body := body + text;
      d := d + 1;
    }
  }

  /** The "Añadí" line: present exactly when the later day has a name the earlier lacks. */
  method AddedPart(before: Day, after: Day) returns (text: string)
    ensures text == [] <==> AddedNames(before, after) == {}
    ensures text != [] ==> text[0] == '-'
    ensures AddedNames(before, after) != {} ==>
      exists order :: IsOrderOf(order, AddedNames(before, after)) && text == AddedLine(before.dayName, order)
  {
    var added := AddedNames(before, after);
    text := "";
    if added != {} {
      var order := SetOrder(added);
      text := AddedLine(before.dayName, order);
    }
  }

  /** The "Reemplacé" lines: one per removed name, each naming the first exercise of the later
      day whose name is new there; none when no name is new. */
  method ReplacedPart(before: Day, after: Day) returns (text: string)
    ensures AddedNames(before, after) == {} ==> text == []
    ensures text != [] ==> text[0] == '-'
    ensures forall gone :: gone in RemovedNames(before, after) && Partner(before, after) != -1 ==>
      Contains(text, ReplacedLine(before.dayName, gone, after.exercises[Partner(before, after)].name))
  {
    var added := AddedNames(before, after);
    var removed := RemovedNames(before, after);
    text := "";
    if removed != {} {
      var gone := SetOrder(removed);
      var j := 0;
      while j < |gone|
        invariant 0 <= j <= |gone|
        invariant Partner(before, after) == -1 ==> text == []
        invariant text != [] ==> text[0] == '-'
        invariant forall j' :: 0 <= j' < j && Partner(before, after) != -1 ==>
          Contains(text, ReplacedLine(before.dayName, gone[j'], after.exercises[Partner(before, after)].name))
      {
        var k := FindNamedIn(after.exercises, added);
        if k != -1 {
          var line := ReplacedLine(before.dayName, gone[j], after.exercises[k].name);
          forall j' | 0 <= j' < j
            ensures Contains(text + line, ReplacedLine(before.dayName, gone[j'], after.exercises[k].name))
          {
            ContainsExtended(text, line, ReplacedLine(before.dayName, gone[j'], after.exercises[k].name));
          }
          ContainsAppended(text, line);
          text := text + line;
        }
        j := j + 1;
      }
    }
  }

  /** The "Ajusté" lines: one per position where the same exercise changed sets or reps. */
  method AdjustedPart(before: Day, after: Day) returns (text: string)
    ensures text == [] <==> forall i :: !Adjusted(before, after, i)
    ensures text != [] ==> text[0] == '-'
    ensures forall i :: Adjusted(before, after, i) ==>
      Contains(text, AdjustedLine(before.dayName, before.exercises[i], after.exercises[i]))
  {
    text := "";
    ghost var adjusted := -1;
    var i := 0;
    while i < |before.exercises| && i < |after.exercises|
      invariant 0 <= i <= |before.exercises|
      invariant text == [] || text[0] == '-'
      invariant text == [] <==> adjusted == -1
      invariant adjusted != -1 ==> Adjusted(before, after, adjusted)
      invariant adjusted == -1 ==> forall i' :: 0 <= i' < i ==> !Adjusted(before, after, i')
      invariant forall i' :: 0 <= i' < i && Adjusted(before, after, i') ==>
        Contains(text, AdjustedLine(before.dayName, before.exercises[i'], after.exercises[i']))
    {
      var b := before.exercises[i];
      var a := after.exercises[i];
      if b.name == a.name && (b.sets != a.sets || b.reps != a.reps) {
        assert Adjusted(before, after, i);
        var line := AdjustedLine(before.dayName, b, a);
        assert line[0] == '-';
        AdjustedLineAppended(before, after, i, text);
        text := text + line;
        adjusted := i;
      } else {
        assert !Adjusted(before, after, i);
      }
      i := i + 1;
    }
  }

  /** Appending the line of the adjusted exercise at `i` keeps the lines of the adjusted
      exercises before it and adds its own. */
  lemma AdjustedLineAppended(before: Day, after: Day, i: nat, text: string)
    requires Adjusted(before, after, i)
    requires forall i' :: 0 <= i' < i && Adjusted(before, after, i') ==>
      Contains(text, AdjustedLine(before.dayName, before.exercises[i'], after.exercises[i']))
    ensures forall i' :: 0 <= i' < i + 1 && Adjusted(before, after, i') ==>
      Contains(text + AdjustedLine(before.dayName, before.exercises[i], after.exercises[i]),
               AdjustedLine(before.dayName, before.exercises[i'], after.exercises[i']))
  {
    var line := AdjustedLine(before.dayName, before.exercises[i], after.exercises[i]);
    forall i' | 0 <= i' < i + 1 && Adjusted(before, after, i')
      ensures Contains(text + line, AdjustedLine(before.dayName, before.exercises[i'], after.exercises[i']))
    {
      if i' < i {
        ContainsExtended(text, line, AdjustedLine(before.dayName, before.exercises[i'], after.exercises[i']));
      } else {
        ContainsAppended(text, line);
      }
    }
  }

  /** A routine compared with itself yields the no-change note. */
  lemma SameRoutineIsNotReported(r: Routine)
    ensures !Reportable(r, r)
  {
  }

  /** The routine with the last exercise of day `d` removed. */
  function WithoutLastExercise(r: Routine, d: nat): Routine
    requires d < |r.days| && r.days[d].exercises != []
  {
    var exs := r.days[d].exercises;
    WithExercises(r, d, exs[..|exs| - 1])
  }

  /** A removal alone is not reported: no name is new and no kept position changed. */
  lemma RemovalIsNotReported(r: Routine, d: nat)
    requires d < |r.days| && r.days[d].exercises != []
    ensures !Reportable(r, WithoutLastExercise(r, d))
  {
    var r' := WithoutLastExercise(r, d);
    forall d' | 0 <= d' < |r.days| ensures !DayReportable(r.days[d'], r'.days[d']) {
      if d' == d {
        var before := r.days[d];
        var after := r'.days[d];
        forall x | x in NameSet(after.exercises) ensures x in NameSet(before.exercises) {
          var e :| e in after.exercises && e.name == x;
          assert e in before.exercises;
        }
      }
    }
  }

  /** A change of rest time alone is not reported: only names, sets and reps are compared. */
  lemma RestChangeIsNotReported(r: Routine, d: nat, i: nat, rest: string)
    requires d < |r.days| && i < |r.days[d].exercises|
    ensures !Reportable(r, WithExercise(r, d, i, r.days[d].exercises[i].(rest := rest)))
  {
    var r' := WithExercise(r, d, i, r.days[d].exercises[i].(rest := rest));
    forall d' | 0 <= d' < |r.days| ensures !DayReportable(r.days[d'], r'.days[d']) {
      if d' == d {
        var before := r.days[d];
        var after := r'.days[d];
        forall x | x in NameSet(after.exercises) ensures x in NameSet(before.exercises) {
          var k :| 0 <= k < |after.exercises| && after.exercises[k].name == x;
          assert before.exercises[k].name == x;
        }
      }
    }
  }

  /** An addition that changed the routine is reported: the appended entries are named
      differently from every exercise already on the day. */
  lemma AdditionIsReported(current: Routine, r: Routine, request: string)
    requires AddedAsAsked(current, r, request) && r != current
    ensures Reportable(current, r)
  {
    GroupsAreCatalogued();
    var gk := FirstKeyMentioned(CatalogGroups, request, 0);
    var dk := FirstKeyMentioned(DayNames(current.days), request, 0);
    var day := current.days[dk];
    assert AddedToDay(current, r, CatalogGroups[gk], dk);
    var unused := NotAmong(ExerciseCatalog[CatalogGroups[gk]], LowerNames(day.exercises));
    var added := r.days[dk].exercises[|day.exercises|..];
    var e := added[0];
    assert ItemOf(e) in unused;
    assert Lower(e.name) !in LowerNames(day.exercises);
    forall k | 0 <= k < |day.exercises| ensures day.exercises[k].name != e.name {
      assert LowerNames(day.exercises)[k] == Lower(day.exercises[k].name);
    }
    assert e == r.days[dk].exercises[|day.exercises|];
    assert e.name in AddedNames(day, r.days[dk]);
    assert DayReportable(current.days[dk], r.days[dk]);
  }
}
