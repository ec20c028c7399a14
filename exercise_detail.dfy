/** `pages/ExerciseDetailPage.tsx`: the text the detail page derives from one exercise
    (difficulty, starting position, movement, tips, worked muscles), the related exercises
    it shows beside it, and its favorite toggle. The tables are the page's own constants. */
module ExerciseDetail {
  import opened Exercises
  import Js
  import Favorites

  // ---------------------------------------------------------------------------
  // Difficulty

  datatype Difficulty = Difficulty(level: string, text: string)

  const EXPERT := Difficulty("expert", "İleri")
  const INTERMEDIATE := Difficulty("intermediate", "Orta")
  const BEGINNER := Difficulty("beginner", "Başlangıç")

  predicate ExpertSignal(e: Exercise)
  {
    e.target == "delts" || e.equipment == "barbell" || e.bodyPart == "upper arms"
  }

  predicate IntermediateSignal(e: Exercise)
  {
    e.target == "abs" || e.equipment == "cable" || e.bodyPart == "back"
  }

  /** `getDifficulty`. */
  function GetDifficulty(e: Exercise): (d: Difficulty)
    ensures d == EXPERT <==> ExpertSignal(e)
    ensures d == INTERMEDIATE <==> !ExpertSignal(e) && IntermediateSignal(e)
    ensures d == BEGINNER <==> !ExpertSignal(e) && !IntermediateSignal(e)
  {
    if ExpertSignal(e) then EXPERT
    else if IntermediateSignal(e) then INTERMEDIATE
    else BEGINNER
  }

  function Rank(d: Difficulty): nat
  {
    if d == EXPERT then 2 else if d == INTERMEDIATE then 1 else 0
  }

  /** The levels the exercise's fields call for; beginner is always among them. */
  function CalledFor(e: Exercise): set<Difficulty>
  {
    {BEGINNER} + (if IntermediateSignal(e) then {INTERMEDIATE} else {}) + (if ExpertSignal(e) then {EXPERT} else {})
  }

  /** The difficulty is the hardest level any field calls for: when both the expert and
      the intermediate tests apply, expert wins. */
  lemma {:induction false} DifficultyIsHardestCalledFor(e: Exercise)
    ensures GetDifficulty(e) in CalledFor(e)
    ensures forall d :: d in CalledFor(e) ==> Rank(d) <= Rank(GetDifficulty(e))
  {
    assert EXPERT != INTERMEDIATE && EXPERT != BEGINNER && INTERMEDIATE != BEGINNER;
  }

  // ---------------------------------------------------------------------------
  // Starting position and movement

  /** Every entry of `table` is truthy, so `table[key] || fallback` falls back exactly
      when the key is missing. */
  predicate NoBlankEntry(table: map<string, string>)
  {
    forall k :: k in table ==> table[k] != ""
  }

  const POSITIONS: map<string, string> := map[
    "abs" := "Sırtüstü yatın ve dizlerinizi bükün.",
    "waist" := "Ayakta durun ve ayaklarınızı omuz genişliğinde açın.",
    "back" := "Yere yüzüstü uzanın veya duruma göre otururken sırtınızı dik tutun.",
    "chest" := "Sırt üstü bench'e uzanın veya yere uzanın.",
    "shoulders" := "Dik bir şekilde oturun veya ayakta durun.",
    "upper arms" := "Ayakta durun, sırtınız dik ve dirsekleriniz vücudunuza yakın olsun.",
    "lower arms" := "Bir bench'e oturun, kolunuzu dizinize yaslayın.",
    "upper legs" := "Ayakta durun ve ayaklarınızı omuz genişliğinde açın.",
    "lower legs" := "Ayakta durun veya oturun, ayak bileğinize odaklanın.",
    "cardio" := "Rahat bir başlangıç pozisyonu alın.",
    "neck" := "Dik oturun, omuzlarınız rahat pozisyonda olsun."
  ]

  const DEFAULT_POSITION := "Uygun bir pozisyonda durun ve harekete hazırlanın."

  /** `getStartingPosition`: the body part's entry, else the general sentence. */
  function GetStartingPosition(e: Exercise): (r: string)
    ensures e.bodyPart in POSITIONS ==> r == POSITIONS[e.bodyPart]
    ensures e.bodyPart !in POSITIONS ==> r == DEFAULT_POSITION
    ensures r != ""
  {
    Js.Or(Js.Lookup(POSITIONS, e.bodyPart), DEFAULT_POSITION)
  }

  const BODY_PART_MOVEMENTS: map<string, string> := map[
    "abs" := "Karın kaslarınızı sıkarak üst vücudunuzu yerden kaldırın ve kontrollü bir şekilde indirin.",
    "waist" := "Üst vücudunuzu bir tarafa doğru döndürün ve sonra diğer tarafa döndürün.",
    "back" := "Sırt kaslarınızı kullanarak üst vücudunuzu yerden kaldırın.",
    "chest" := "Ağırlığı göğsünüze doğru indirin ve ardından itin.",
    "shoulders" := "Ağırlıkları başınızın üzerine doğru yukarı itin.",
    "upper legs" := "Dizlerinizi bükerek çömelin ve sonra başlangıç pozisyonuna dönün.",
    "lower legs" := "Ayak parmaklarınızı kendinize doğru çekin veya uzaklaştırın.",
    "upper arms" := "Dirseğinizi bükerek ağırlığı omzunuza doğru kaldırın.",
    "lower arms" := "Bileğinizi bükerek ağırlığı kaldırın veya indirin."
  ]

  /** The wording the barbell entry uses for a chest exercise. */
  const CHEST_BARBELL_MOVEMENT := "Barbell'i kontrollü bir şekilde kaldırın ve indirin."

  /** The equipment table; its barbell entry depends on the body part. */
  function EquipmentMovements(e: Exercise): map<string, string>
  {
    map[
      "barbell" := (if e.bodyPart == "chest" then "Barbell'i" else "Barı") + " kontrollü bir şekilde kaldırın ve indirin.",
      "dumbbell" := "Dumbbell'ları kontrollü bir şekilde kaldırın ve indirin.",
      "cable" := "Kablo makinesini kullanarak hareketi kontrollü bir şekilde gerçekleştirin.",
      "body weight" := "Vücut ağırlığınızı kullanarak hareketi gerçekleştirin.",
      "leverage machine" := "Makineyi kullanarak hedef kaslarınıza odaklanın."
    ]
  }

  const TEMPLATE_END := " üzerine odaklanın."

  /** The sentence used when neither table has an entry. */
  function MovementTemplate(e: Exercise): string
  {
    e.name + " hareketini kontrollü bir şekilde gerçekleştirin ve hedef kas olan " + e.target + TEMPLATE_END
  }

  /** `getMovementDescription`: the body-part table first, then the equipment table, then
      the template naming the exercise and its target. */
  function GetMovementDescription(e: Exercise): (r: string)
    ensures e.bodyPart in BODY_PART_MOVEMENTS ==> r == BODY_PART_MOVEMENTS[e.bodyPart]
    ensures e.bodyPart !in BODY_PART_MOVEMENTS && e.equipment in EquipmentMovements(e) ==>
      r == EquipmentMovements(e)[e.equipment]
    ensures e.bodyPart !in BODY_PART_MOVEMENTS && e.equipment !in EquipmentMovements(e) ==>
      r == MovementTemplate(e)
  {
    var byBodyPart := Js.Lookup(BODY_PART_MOVEMENTS, e.bodyPart);
    var equipment := EquipmentMovements(e);
    var byEquipment := Js.Lookup(equipment, e.equipment);
    assert byBodyPart != "" <==> e.bodyPart in BODY_PART_MOVEMENTS by {
      BodyPartMovementsHaveNoBlankEntry();
    }
    assert byEquipment != "" <==> e.equipment in equipment by {
      EquipmentMovementsHaveNoBlankEntry(e);
    }
    Js.Or(byBodyPart, Js.Or(byEquipment, MovementTemplate(e)))
  }

  lemma {:induction false} BodyPartMovementsHaveNoBlankEntry()
    ensures NoBlankEntry(BODY_PART_MOVEMENTS)
  {
  }

  lemma {:induction false} EquipmentMovementsHaveNoBlankEntry(e: Exercise)
    ensures NoBlankEntry(EquipmentMovements(e))
  {
  }

  /** The body-part table has a "chest" entry and is consulted first, so the chest
      wording of the barbell entry is never returned. */
  lemma {:induction false} ChestBarbellWordingNeverShown(e: Exercise)
    ensures GetMovementDescription(e) != CHEST_BARBELL_MOVEMENT
  {
    var r := GetMovementDescription(e);
    var c := CHEST_BARBELL_MOVEMENT;
    if e.bodyPart !in BODY_PART_MOVEMENTS && e.equipment !in EquipmentMovements(e) {
      var prefix := e.name + " hareketini kontrollü bir şekilde gerçekleştirin ve hedef kas olan " + e.target;
      assert r == prefix + TEMPLATE_END;
      assert r[|r| - 3] == TEMPLATE_END[|TEMPLATE_END| - 3] == 'ı';
      assert c[|c| - 3] == 'i';
    }
  }

  // ---------------------------------------------------------------------------
  // Tips

  const STANDARD_TIPS: seq<string> := [
    "Hareketi kontrollü bir şekilde yapın, hızlı hareket etmeyin.",
    "Doğru formu koruyun ve sırtınızı düz tutun.",
    "Nefes alıp vermeyi unutmayın: zorlanırken nefes verin, gevşerken nefes alın."
  ]

  const BODY_PART_TIPS: map<string, seq<string>> := map[
    "abs" := ["Boyun gerginliğini önlemek için elinizle başınızı desteklemeyin.", "Karın kaslarınızı tüm hareket boyunca sıkı tutun."],
    "back" := ["Bel incinmelerini önlemek için ani hareketlerden kaçının.", "Hareketi sırt kaslarınızla yapın, kollarınızla değil."],
    "chest" := ["Göğüs kaslarınızı her tekrarda tamamen sıkıştırın.", "Dirseklerinizi vücudunuza çok yakın veya çok uzak tutmayın."],
    "shoulders" := ["Omuz sakatlıklarını önlemek için ağır ağırlıklarla başlamayın.", "Hareket sırasında vücudunuzu sallamaktan kaçının."],
    "upper arms" := ["Biseps hareketlerinde dirseklerinizi sabit tutun.", "Triseps hareketlerinde üst kolunuzu sabit tutun."]
  ]

  const EQUIPMENT_TIPS: map<string, seq<string>> := map[
    "barbell" := ["Bar'ı sıkıca kavrayın ama çok sıkmayın.", "Ağırlığı dengeli bir şekilde kaldırdığınızdan emin olun."],
    "dumbbell" := ["Hareketi her iki tarafta da eşit şekilde gerçekleştirin.", "Bileklerinizi düz tutun, bükmeyin."],
    "cable" := ["Kablonun gerginliğini hareket boyunca koruyun.", "Hızlı, ani çekmelerden kaçının."],
    "body weight" := ["Egzersizi zorlaştırmak için temponuzu yavaşlatın.", "Denge ve stabiliteye odaklanın."]
  ]

  /** `table[key] || []`: an array is always truthy, so only a missing entry falls back. */
  function LookupList(table: map<string, seq<string>>, key: string): (r: seq<string>)
    ensures key in table ==> r == table[key]
    ensures key !in table ==> r == []
  {
    if key in table then table[key] else []
  }

  /** `getTips`: the three standard tips, then the body part's tips, then the equipment's. */
  function GetTips(e: Exercise): (r: seq<string>)
    ensures |r| >= 3 && r[..3] == STANDARD_TIPS
    ensures |r| == 3 + (if e.bodyPart in BODY_PART_TIPS then 2 else 0) + (if e.equipment in EQUIPMENT_TIPS then 2 else 0)
    ensures |r| == 3 || |r| == 5 || |r| == 7
    ensures e.bodyPart in BODY_PART_TIPS ==> r[3..5] == BODY_PART_TIPS[e.bodyPart]
    ensures e.equipment in EQUIPMENT_TIPS ==> r[|r| - 2..] == EQUIPMENT_TIPS[e.equipment]
  {
    assert forall k :: k in BODY_PART_TIPS ==> |BODY_PART_TIPS[k]| == 2;
    assert forall k :: k in EQUIPMENT_TIPS ==> |EQUIPMENT_TIPS[k]| == 2;
    STANDARD_TIPS + LookupList(BODY_PART_TIPS, e.bodyPart) + LookupList(EQUIPMENT_TIPS, e.equipment)
  }

  // ---------------------------------------------------------------------------
  // Worked muscles

  const SECONDARY_MUSCLES: map<string, seq<string>> := map[
    "abs" := ["Rectus Abdominis", "Obliques", "Transverse Abdominis"],
    "waist" := ["Obliques", "Quadratus Lumborum", "Erector Spinae"],
    "back" := ["Latissimus Dorsi", "Rhomboids", "Trapezius", "Erector Spinae"],
    "chest" := ["Pectoralis Major", "Pectoralis Minor", "Serratus Anterior", "Anterior Deltoids"],
    "shoulders" := ["Anterior Deltoid", "Lateral Deltoid", "Posterior Deltoid", "Trapezius"],
    "upper arms" := ["Biceps Brachii", "Triceps Brachii", "Brachialis"],
    "lower arms" := ["Forearm Flexors", "Forearm Extensors"],
    "upper legs" := ["Quadriceps", "Hamstrings", "Gluteus Maximus", "Adductors"],
    "lower legs" := ["Gastrocnemius", "Soleus", "Tibialis Anterior"]
  ]

  const SUPPORTING_MUSCLES := "İlgili destek kasları"

  /** Some listed muscle contains the target, ignoring case. */
  predicate MentionsTarget(muscles: seq<string>, target: string)
  {
    exists k :: 0 <= k < |muscles| && Js.Includes(Js.Lower(muscles[k]), Js.Lower(target))
  }

  /** `getTargetMuscles`. */
  function GetTargetMuscles(e: Exercise): (r: seq<string>)
    ensures e.bodyPart !in SECONDARY_MUSCLES ==> r == [e.target, SUPPORTING_MUSCLES]
    ensures e.bodyPart in SECONDARY_MUSCLES && MentionsTarget(SECONDARY_MUSCLES[e.bodyPart], e.target) ==>
      r == SECONDARY_MUSCLES[e.bodyPart]
    ensures e.bodyPart in SECONDARY_MUSCLES && !MentionsTarget(SECONDARY_MUSCLES[e.bodyPart], e.target) ==>
      && |r| == 1 + Js.Min(3, |SECONDARY_MUSCLES[e.bodyPart]|)
      && r[0] == Js.CapitalizeFirst(e.target)
      && r[1..] == SECONDARY_MUSCLES[e.bodyPart][..|r| - 1]
    ensures 2 <= |r| <= 4
  {
    assert forall k :: k in SECONDARY_MUSCLES ==> 2 <= |SECONDARY_MUSCLES[k]| <= 4;
    if e.bodyPart !in SECONDARY_MUSCLES then
      [e.target, SUPPORTING_MUSCLES]
    else
      var muscles := SECONDARY_MUSCLES[e.bodyPart];
      if MentionsTarget(muscles, e.target) then muscles
      else [Js.CapitalizeFirst(e.target)] + Js.Slice(muscles, 0, 3)
  }

  /** An empty target is contained in every name, so the body part's list is returned whole. */
  lemma {:induction false} EmptyTargetKeepsTable(e: Exercise)
    requires e.target == "" && e.bodyPart in SECONDARY_MUSCLES
    ensures GetTargetMuscles(e) == SECONDARY_MUSCLES[e.bodyPart]
  {
    var muscles := SECONDARY_MUSCLES[e.bodyPart];
    assert |muscles| > 0;
    assert Js.Lower("") == "";
    Js.IncludesEmpty(Js.Lower(muscles[0]));
    assert MentionsTarget(muscles, e.target);
  }

  // ---------------------------------------------------------------------------
  // Related exercises

  const RELATED_COUNT: nat := 4

  /** The related list the page shows: the query is disabled while the exercise has no
      target, leaving the default `[]`; otherwise its `select` keeps the same-target
      exercises other than this one, at most four, in the order the server sent them. */
  function RelatedExercises(data: seq<Exercise>, current: Exercise): (r: seq<Exercise>)
    ensures current.target == "" ==> r == []
    ensures |r| <= RELATED_COUNT
    ensures forall k :: 0 <= k < |r| ==> r[k].id != current.id
    ensures Js.IsSubsequence(r, data)
    ensures current.target != "" ==>
      var others := Js.Filter(data, Favorites.KeepOthers(current.id));
      |r| == Js.Min(RELATED_COUNT, |others|) && r == others[..|r|]
  {
    if current.target == "" then
      []
    else
      var others := Js.Filter(data, Favorites.KeepOthers(current.id));
      var r := Js.Slice(others, 0, RELATED_COUNT);
      Js.SliceIsSubsequence(others, 0, RELATED_COUNT);
      Js.SubsequenceTransitive(r, others, data);
      r
  }

  // ---------------------------------------------------------------------------
  // Favorite toggle

  /** What `handleToggleFavorite` broadcasts for a loaded exercise: a removal when the
      page's list holds its id, else an addition (`None`: nothing is broadcast). */
  function Toggled(list: seq<Exercise>, exercise: Exercise): (r: Option<seq<Exercise>>)
    ensures r.None? <==> exercise.id == ""
    ensures r.Some? ==> Favorites.IsFavorite(r.value, exercise.id) == !Favorites.IsFavorite(list, exercise.id)
    ensures r.Some? && !Favorites.IsFavorite(list, exercise.id) ==> r.value == list + [exercise]
    ensures r.Some? && Favorites.IsFavorite(list, exercise.id) ==>
      && Js.IsSubsequence(r.value, list)
      && forall x: Exercise :: x.id != exercise.id ==> multiset(r.value)[x] == multiset(list)[x]
  {
    if Favorites.IsFavorite(list, exercise.id) then Favorites.Removed(list, exercise.id)
    else Favorites.Added(list, exercise)
  }

  /** Toggling an exercise that is not a favorite twice gives back the list it started from. */
  lemma {:induction false} ToggleTwiceRestores(list: seq<Exercise>, exercise: Exercise)
    requires exercise.id != "" && !Favorites.HasId(list, exercise.id)
    ensures Toggled(Toggled(list, exercise).value, exercise) == Some(list)
  {
    Favorites.RemoveUndoesAdd(list, exercise);
  }

  /** `handleToggleFavorite` through the page's binding `b`; `exercise` is `None` while the
      exercise is not loaded. */
  method HandleToggleFavorite(store: Favorites.Store, b: Favorites.Binding, exercise: Option<Exercise>, writeOk: bool)
    modifies store, store.globalSetters
    ensures exercise.None? ==> store.Untouched()
    ensures exercise.Some? ==>
      var r := Toggled(old(b.favorites), exercise.value);
      if r.None? then store.Untouched() else store.Committed(r.value, writeOk)
  {
    if exercise.None? {
      return;
    }
    var e := exercise.value;
    if Favorites.IsFavorite(b.favorites, e.id) {
      store.RemoveFavorite(b, e.id, writeOk);
    } else {
      store.AddFavorite(b, e, writeOk);
    }
  }
}
