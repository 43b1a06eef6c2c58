/** The constant tables of the offline generator: the exercise catalog by muscle group,
    the five routine types with their prescriptions and focus rotations, the weekday names
    and the focus-to-muscle-group map. Python dictionaries keep insertion order, so each
    table keeps its key order alongside the map. */
module Catalog {

  /** One catalog entry. */
  datatype CatalogItem = CatalogItem(name: string, equipment: string)

  /** The prescription and focus rotation of a routine type. */
  datatype RoutineConfig = RoutineConfig(sets: int, reps: string, rest: string, focusMap: seq<string>)

  /** Catalog groups in their declaration order. */
  const CatalogGroups: seq<string> := ["pecho", "espalda", "hombros", "piernas", "brazos", "core", "cardio"]

  /** The entries of each catalog group, in declaration order. */
  const ChestExercises: seq<CatalogItem> := [
    CatalogItem("Press de banca", "barra y banco"),
    CatalogItem("Flexiones", "peso corporal"),
    CatalogItem("Press con mancuernas", "mancuernas"),
    CatalogItem("Aperturas con mancuernas", "mancuernas"),
    CatalogItem("Fondos en paralelas", "paralelas")]

  const BackExercises: seq<CatalogItem> := [
    CatalogItem("Dominadas", "barra de dominadas"),
    CatalogItem("Remo con barra", "barra"),
    CatalogItem("Remo con mancuerna", "mancuerna"),
    CatalogItem("Pulldown en polea", "máquina de poleas"),
    CatalogItem("Peso muerto", "barra")]

  const ShoulderExercises: seq<CatalogItem> := [
    CatalogItem("Press militar", "barra o mancuernas"),
    CatalogItem("Elevaciones laterales", "mancuernas"),
    CatalogItem("Elevaciones frontales", "mancuernas"),
    CatalogItem("Pájaros", "mancuernas"),
    CatalogItem("Face pull", "polea")]

  const LegExercises: seq<CatalogItem> := [
    CatalogItem("Sentadillas", "barra o peso corporal"),
    CatalogItem("Prensa", "máquina"),
    CatalogItem("Extensiones de cuádriceps", "máquina"),
    CatalogItem("Curl de isquiotibiales", "máquina"),
    CatalogItem("Zancadas", "mancuernas o peso corporal")]

  const ArmExercises: seq<CatalogItem> := [
    CatalogItem("Curl con barra", "barra"),
    CatalogItem("Curl con mancuernas", "mancuernas"),
    CatalogItem("Press francés", "barra o mancuerna"),
    CatalogItem("Extensiones de tríceps en polea", "polea"),
    CatalogItem("Fondos para tríceps", "banco o paralelas")]

  const CoreExercises: seq<CatalogItem> := [
    CatalogItem("Crunches", "peso corporal"),
    CatalogItem("Plancha", "peso corporal"),
    CatalogItem("Russian twist", "peso corporal o peso libre"),
    CatalogItem("Elevación de piernas", "peso corporal"),
    CatalogItem("Rueda abdominal", "rueda abdominal")]

  const CardioExercises: seq<CatalogItem> := [
    CatalogItem("Carrera continua", "ninguno"),
    CatalogItem("HIIT", "ninguno"),
    CatalogItem("Saltos", "ninguno"),
    CatalogItem("Burpees", "ninguno"),
    CatalogItem("Jump Rope", "cuerda")]

  const ExerciseCatalog: map<string, seq<CatalogItem>> := map[
    "pecho" := ChestExercises,
    "espalda" := BackExercises,
    "hombros" := ShoulderExercises,
    "piernas" := LegExercises,
    "brazos" := ArmExercises,
    "core" := CoreExercises,
    "cardio" := CardioExercises
  ]

  /** Routine types in their declaration order. */
  const RoutineTypeNames: seq<string> := ["masa", "definición", "fuerza", "resistencia", "mantenimiento"]

  /** The type chosen when no goal keyword matches. */
  const MaintenanceType: string := "mantenimiento"

  const RoutineTypes: map<string, RoutineConfig> := map[
    "masa" := RoutineConfig(4, "6-8", "90-120 seg", ["pecho/tríceps", "espalda/bíceps", "piernas/hombros"]),
    "definición" := RoutineConfig(3, "12-15", "45-60 seg", ["pecho/hombros", "espalda/brazos", "piernas/core"]),
    "fuerza" := RoutineConfig(5, "3-5", "180-240 seg", ["pecho/tríceps", "espalda/bíceps", "piernas"]),
    "resistencia" := RoutineConfig(3, "15-20", "30-45 seg", ["pecho/espalda", "piernas/core", "fullbody"]),
    "mantenimiento" := RoutineConfig(3, "10-12", "60 seg", ["empuje", "tirón", "piernas/core"])
  ]

  const DaysOfWeek: seq<string> := ["Lunes", "Martes", "Miércoles", "Jueves", "Viernes", "Sábado", "Domingo"]

  const MuscleGroupMap: map<string, seq<string>> := map[
    "pecho/tríceps" := ["pecho", "brazos"],
    "espalda/bíceps" := ["espalda", "brazos"],
    "piernas/hombros" := ["piernas", "hombros"],
    "pecho/hombros" := ["pecho", "hombros"],
    "espalda/brazos" := ["espalda", "brazos"],
    "piernas/core" := ["piernas", "core"],
    "pecho/espalda" := ["pecho", "espalda"],
    "fullbody" := ["pecho", "espalda", "hombros", "piernas", "core"],
    "empuje" := ["pecho", "hombros", "brazos"],
    "tirón" := ["espalda", "brazos"]
  ]

  /** `muscle_group_map` with the entry the strength rotation needs: its third focus,
      "piernas", is not a key of the table as written. */
  const CorrectedMuscleGroupMap: map<string, seq<string>> := MuscleGroupMap["piernas" := ["piernas"]]

  /** The table facts the generator's lookups rely on: the key orders list the keys, every
      routine type rotates through three foci, and every muscle group a focus table names
      has a catalog entry. */
  ghost predicate TablesConsistent() {
    && (forall t :: t in RoutineTypes <==> t in RoutineTypeNames)
    && (forall g :: g in ExerciseCatalog <==> g in CatalogGroups)
    && (forall t :: t in RoutineTypes ==> |RoutineTypes[t].focusMap| == 3)
    && GroupsInCatalog(MuscleGroupMap)
    && GroupsInCatalog(CorrectedMuscleGroupMap)
  }

  /** Every muscle group a focus table names has a catalog entry. */
  ghost predicate GroupsInCatalog(groupMap: map<string, seq<string>>) {
    forall f, g :: f in groupMap && g in groupMap[f] ==> g in ExerciseCatalog
  }

  /** The names within one catalog group are pairwise distinct. */
  predicate DistinctNames(items: seq<CatalogItem>) {
    forall i, j :: 0 <= i < j < |items| ==> items[i].name != items[j].name
  }

  lemma TablesAreConsistent()
    ensures TablesConsistent()
  {
    RoutineTypeKeys();
    CatalogKeys();
    GroupsResolve();
  }

  lemma RoutineTypeKeys()
    ensures forall t :: t in RoutineTypes <==> t in RoutineTypeNames
  {
    assert RoutineTypes.Keys == {"masa", "definición", "fuerza", "resistencia", "mantenimiento"};
  }

  lemma CatalogKeys()
    ensures forall g :: g in ExerciseCatalog <==> g in CatalogGroups
  {
    assert ExerciseCatalog.Keys == {"pecho", "espalda", "hombros", "piernas", "brazos", "core", "cardio"};
  }

  lemma GroupsResolve()
    ensures GroupsInCatalog(MuscleGroupMap) && GroupsInCatalog(CorrectedMuscleGroupMap)
  {
    TableGroupsResolve();
    assert "piernas" in ExerciseCatalog;
  }

  lemma TableGroupsResolve()
    ensures GroupsInCatalog(MuscleGroupMap)
  {
    assert MuscleGroupMap.Keys == {"pecho/tríceps", "espalda/bíceps", "piernas/hombros", "pecho/hombros",
      "espalda/brazos", "piernas/core", "pecho/espalda", "fullbody", "empuje", "tirón"};
  }

  /** Every focus of every rotation is a key of the corrected table. */
  lemma CorrectedTableCoversRotations()
    ensures forall t, f :: t in RoutineTypes && f in RoutineTypes[t].focusMap ==> f in CorrectedMuscleGroupMap
  {
    RoutineTypeKeys();
    forall t, f | t in RoutineTypes && f in RoutineTypes[t].focusMap ensures f in CorrectedMuscleGroupMap {
      assert t in RoutineTypeNames;
      if t == "masa" {
        assert f in ["pecho/tríceps", "espalda/bíceps", "piernas/hombros"];
      } else if t == "definición" {
        assert f in ["pecho/hombros", "espalda/brazos", "piernas/core"];
      } else if t == "fuerza" {
        assert f in ["pecho/tríceps", "espalda/bíceps", "piernas"];
      } else if t == "resistencia" {
        assert f in ["pecho/espalda", "piernas/core", "fullbody"];
      } else {
        assert f in ["empuje", "tirón", "piernas/core"];
      }
    }
  }

  lemma CatalogNamesDistinct(g: string)
    requires g in ExerciseCatalog
    ensures DistinctNames(ExerciseCatalog[g])
    ensures |ExerciseCatalog[g]| == 5
  {
    CatalogKeys();
    if g == "pecho" {
      assert ExerciseCatalog[g] == ChestExercises;
      ChestNamesDistinct();
    } else if g == "espalda" {
      assert ExerciseCatalog[g] == BackExercises;
      BackNamesDistinct();
    } else if g == "hombros" {
      assert ExerciseCatalog[g] == ShoulderExercises;
      ShoulderNamesDistinct();
    } else if g == "piernas" {
      assert ExerciseCatalog[g] == LegExercises;
      LegNamesDistinct();
    } else if g == "brazos" {
      assert ExerciseCatalog[g] == ArmExercises;
      ArmNamesDistinct();
    } else if g == "core" {
      assert ExerciseCatalog[g] == CoreExercises;
      CoreNamesDistinct();
    } else {
      assert ExerciseCatalog[g] == CardioExercises;
      CardioNamesDistinct();
    }
  }

  lemma ChestNamesDistinct()
    ensures DistinctNames(ChestExercises)
  {
  }

  lemma BackNamesDistinct()
    ensures DistinctNames(BackExercises)
  {
  }

  lemma ShoulderNamesDistinct()
    ensures DistinctNames(ShoulderExercises)
  {
  }

  lemma LegNamesDistinct()
    ensures DistinctNames(LegExercises)
  {
  }

  lemma ArmNamesDistinct()
    ensures DistinctNames(ArmExercises)
  {
  }

  lemma CoreNamesDistinct()
    ensures DistinctNames(CoreExercises)
  {
  }

  lemma CardioNamesDistinct()
    ensures DistinctNames(CardioExercises)
  {
  }
}
