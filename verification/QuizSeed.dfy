/** The quiz catalogue `initQuizTables` seeds into empty tables
    (`models/quiz.js`): eight questions with their answer options and point
    weights, and twelve dental procedures. Point maps are already decoded
    from JSON: a `Weight` is one entry, in the object's key order.

    The catalogue's wording is kept apart from its structure (categories,
    flags, weights, keys), so that facts about the structure are proved
    without unfolding the long texts. */
module QuizSeed {
  import opened Common

  /** The treatment keys point maps and procedures use. */
  datatype Treatment =
    | Whitening | Veneers | Invisalign | Preventive | DeepCleaning | Implants | Bridges
    | Cosmetic | FullMakeover | Bonding | Orthodontics | GumContouring | Crowns
    | Periodontal | Sedation | AnxietyFree

  /** The key as written in the JSON point maps and the `key` column. */
  function KeyName(t: Treatment): string {
    match t
    case Whitening => "whitening"
    case Veneers => "veneers"
    case Invisalign => "invisalign"
    case Preventive => "preventive"
    case DeepCleaning => "deepCleaning"
    case Implants => "implants"
    case Bridges => "bridges"
    case Cosmetic => "cosmetic"
    case FullMakeover => "fullMakeover"
    case Bonding => "bonding"
    case Orthodontics => "orthodontics"
    case GumContouring => "gumContouring"
    case Crowns => "crowns"
    case Periodontal => "periodontal"
    case Sedation => "sedation"
    case AnxietyFree => "anxietyFree"
  }

  /** The treatment a point-map key names, if any. */
  function KeyOf(name: string): Option<Treatment> {
    if name == "whitening" then Some(Whitening)
    else if name == "veneers" then Some(Veneers)
    else if name == "invisalign" then Some(Invisalign)
    else if name == "preventive" then Some(Preventive)
    else if name == "deepCleaning" then Some(DeepCleaning)
    else if name == "implants" then Some(Implants)
    else if name == "bridges" then Some(Bridges)
    else if name == "cosmetic" then Some(Cosmetic)
    else if name == "fullMakeover" then Some(FullMakeover)
    else if name == "bonding" then Some(Bonding)
    else if name == "orthodontics" then Some(Orthodontics)
    else if name == "gumContouring" then Some(GumContouring)
    else if name == "crowns" then Some(Crowns)
    else if name == "periodontal" then Some(Periodontal)
    else if name == "sedation" then Some(Sedation)
    else if name == "anxietyFree" then Some(AnxietyFree)
    else None
  }

  /** Reading a key back gives the treatment it was written from, so
      distinct treatments have distinct keys. */
  lemma KeyOfKeyName(t: Treatment)
    ensures KeyOf(KeyName(t)) == Some(t)
  {
  }

  lemma KeyNameInjective(t: Treatment, u: Treatment)
    ensures KeyName(t) == KeyName(u) <==> t == u
  {
    KeyOfKeyName(t);
    KeyOfKeyName(u);
  }

  datatype Weight = Weight(key: Treatment, points: int)

  /** The texts of a question. */
  datatype Wording = Wording(question: string, subtitle: string, icon: string, funFact: string)

  /** The texts of a procedure. */
  datatype Blurb = Blurb(
    name: string, description: string, timeframe: string, icon: string, colorGradient: string)

  const QuestionCount := 8
  const ProcedureCount := 12

  function QuestionWording(i: nat): Wording {
    match i
    case 0 => Wording(
      "What's your #1 smile goal right now?",
      "Everyone's smile journey is unique — let's find yours!",
      "⭐",
      "Did you know? 48% of adults say a smile is the most memorable feature when meeting someone new!")
    case 1 => Wording(
      "How would you describe your smile right now?",
      "Be honest — no judgment here! This helps us help you.",
      "😊",
      "You're not alone! Studies show 57% of Americans cover their mouth when they laugh.")
    case 2 => Wording(
      "Let's talk about tooth color...",
      "Coffee lovers, wine enthusiasts — we see you!",
      "☀️",
      "Good news! Professional whitening can lighten teeth up to 8 shades in just one visit!")
    case 3 => Wording(
      "How about the alignment of your teeth?",
      "Perfectly imperfect? Or imperfectly perfect?",
      "⚡",
      "Clear aligners have helped over 14 million people straighten their smiles — often in under a year!")
    case 4 => Wording(
      "Any of these bothering you?",
      "Select all that apply — it's like a dental wishlist!",
      "❤️",
      "Dental bonding can fix chips in just 30-60 minutes per tooth — often in a single visit!")
    case 5 => Wording(
      "How are your gums feeling?",
      "Gum health = smile health. Let's check in!",
      "🛡️",
      "Healthy gums shouldn't bleed! If yours do, don't worry — it's usually reversible with proper care.")
    case 6 => Wording(
      "When's your ideal smile transformation?",
      "Big event coming up? Or taking your time?",
      "✨",
      "Zoom whitening takes just 45 minutes! Perfect for wedding season or big presentations.")
    case _ => Wording(
      "Last one! How do you feel about dental visits?",
      "Honest answers only — we've heard it all!",
      "❤️",
      "Dental anxiety is SUPER common — and modern dentistry has amazing comfort options. You're in good hands!")
  }

  function QuestionCategory(i: nat): string {
    match i
    case 0 => "goals"
    case 1 => "current"
    case 2 => "color"
    case 3 => "alignment"
    case 4 => "concerns"
    case 5 => "health"
    case 6 => "timeline"
    case _ => "experience"
  }

  function MultiSelectFlag(i: nat): int {
    match i
    case 0 => 0
    case 1 => 0
    case 2 => 0
    case 3 => 0
    case 4 => 1
    case 5 => 0
    case 6 => 0
    case _ => 0
  }

  /** The point map of each option of question `i`, in option order. */
  function OptionWeights(i: nat): seq<seq<Weight>> {
    match i
    case 0 =>
      [[Weight(Whitening, 3), Weight(Veneers, 1)],
       [Weight(Invisalign, 3), Weight(Veneers, 1)],
       [Weight(Preventive, 3), Weight(DeepCleaning, 2)],
       [Weight(Implants, 3), Weight(Bridges, 2)],
       [Weight(Cosmetic, 2), Weight(Whitening, 1), Weight(Invisalign, 1)]]
    case 1 =>
      [[Weight(Preventive, 3)],
       [Weight(Cosmetic, 1), Weight(Whitening, 1)],
       [Weight(Cosmetic, 2), Weight(Veneers, 1), Weight(Invisalign, 1)],
       [Weight(Cosmetic, 3), Weight(FullMakeover, 2)]]
    case 2 =>
      [[Weight(Preventive, 2)],
       [Weight(Whitening, 2)],
       [Weight(Whitening, 3), Weight(Veneers, 1)],
       [Weight(Whitening, 2), Weight(Veneers, 2), Weight(Bonding, 1)]]
    case 3 =>
      [[Weight(Preventive, 2)],
       [Weight(Invisalign, 2), Weight(Bonding, 1)],
       [Weight(Invisalign, 3)],
       [Weight(Invisalign, 3), Weight(Orthodontics, 2)]]
    case 4 =>
      [[Weight(Bonding, 2), Weight(Veneers, 2)],
       [Weight(Invisalign, 2), Weight(Bonding, 1), Weight(Veneers, 1)],
       [Weight(GumContouring, 3)],
       [Weight(Crowns, 2), Weight(Veneers, 2)],
       [Weight(Bonding, 2), Weight(Veneers, 2)],
       [Weight(Preventive, 2)]]
    case 5 =>
      [[Weight(Preventive, 3)],
       [Weight(DeepCleaning, 2), Weight(Preventive, 1)],
       [Weight(DeepCleaning, 3), Weight(Periodontal, 1)],
       [Weight(Periodontal, 3), Weight(GumContouring, 1)]]
    case 6 =>
      [[Weight(Whitening, 2), Weight(Bonding, 1)],
       [Weight(Invisalign, 1), Weight(Veneers, 1)],
       [Weight(Invisalign, 2), Weight(FullMakeover, 1)],
       [Weight(Preventive, 1)]]
    case _ =>
      [[Weight(Preventive, 2)],
       [Weight(Preventive, 1)],
       [Weight(Sedation, 1)],
       [Weight(Sedation, 2), Weight(AnxietyFree, 2)]]
  }

  /** The label and emoji of option `j` of question `i`. */
  function OptionCaption(i: nat, j: nat): (string, string) {
    match (i, j)
    case (0, 0) => ("A brighter, whiter smile", "✨")
    case (0, 1) => ("Straighter teeth", "📐")
    case (0, 2) => ("Healthier gums & teeth", "💪")
    case (0, 3) => ("Replace missing teeth", "🦷")
    case (0, 4) => ("Just feel more confident", "😊")
    case (1, 0) => ("I love it! Just want to maintain", "🥰")
    case (1, 1) => ("It's okay, room for improvement", "🤔")
    case (1, 2) => ("I hide it in photos", "🫣")
    case (1, 3) => ("I avoid smiling altogether", "😔")
    case (2, 0) => ("Pretty white and bright", "⭐")
    case (2, 1) => ("Slightly yellow/dull", "🌤️")
    case (2, 2) => ("Noticeably stained", "🌥️")
    case (2, 3) => ("Dark spots or discoloration", "☁️")
    case (3, 0) => ("Pretty straight", "✅")
    case (3, 1) => ("Minor crowding or gaps", "↔️")
    case (3, 2) => ("Moderate crookedness", "〰️")
    case (3, 3) => ("Significant alignment issues", "🔀")
    case (4, 0) => ("Chips or cracks", "💔")
    case (4, 1) => ("Gaps between teeth", "🦷")
    case (4, 2) => ("Gummy smile", "😁")
    case (4, 3) => ("Worn down teeth", "📉")
    case (4, 4) => ("Uneven tooth shapes", "📊")
    case (4, 5) => ("None of these!", "🎉")
    case (5, 0) => ("Pink, healthy, no bleeding", "💗")
    case (5, 1) => ("Occasional bleeding when brushing", "🩹")
    case (5, 2) => ("Sensitive or puffy gums", "😬")
    case (5, 3) => ("Receding gumline", "📉")
    case (6, 0) => ("ASAP — I have an event!", "🚀")
    case (6, 1) => ("Within 3-6 months", "📆")
    case (6, 2) => ("Within a year", "🗓️")
    case (6, 3) => ("No rush — whenever it's right", "🧘")
    case (7, 0) => ("I actually enjoy them!", "😍")
    case (7, 1) => ("They're fine, no big deal", "👍")
    case (7, 2) => ("A little nervous", "😅")
    case (7, 3) => ("Pretty anxious, honestly", "😰")
    case _ => ("", "")
  }

  function ProcedureKey(i: nat): Treatment {
    match i
    case 0 => Whitening
    case 1 => Invisalign
    case 2 => Veneers
    case 3 => Bonding
    case 4 => Preventive
    case 5 => DeepCleaning
    case 6 => Implants
    case 7 => Crowns
    case 8 => GumContouring
    case 9 => Cosmetic
    case 10 => Sedation
    case _ => AnxietyFree
  }

  function ProcedureCategory(i: nat): string {
    match i
    case 0 => "cosmetic"
    case 1 => "orthodontic"
    case 2 => "cosmetic"
    case 3 => "cosmetic"
    case 4 => "preventive"
    case 5 => "preventive"
    case 6 => "restorative"
    case 7 => "restorative"
    case 8 => "cosmetic"
    case 9 => "cosmetic"
    case 10 => "comfort"
    case _ => "comfort"
  }

  function ProcedureBlurb(i: nat): Blurb {
    match i
    case 0 => Blurb("Professional Teeth Whitening",
      "Brighten your smile up to 8 shades with our safe, effective whitening treatments.",
      "1 visit (45 min) or 2 weeks at home", "✨", "from-yellow-400 to-amber-500")
    case 1 => Blurb("Invisalign Clear Aligners",
      "Straighten your teeth discreetly with nearly invisible aligners. No metal brackets!",
      "6-18 months typical", "📐", "from-blue-400 to-cyan-500")
    case 2 => Blurb("Porcelain Veneers",
      "Custom-crafted shells that transform the color, shape, and size of your teeth.",
      "2-3 visits over 2-4 weeks", "💎", "from-purple-400 to-pink-500")
    case 3 => Blurb("Dental Bonding",
      "Quick, affordable fix for chips, gaps, and minor imperfections.",
      "1 visit (30-60 min per tooth)", "🔧", "from-green-400 to-emerald-500")
    case 4 => Blurb("Preventive Care Plan",
      "Keep your healthy smile shining with regular cleanings and checkups.",
      "Every 6 months", "🛡️", "from-teal-400 to-cyan-500")
    case 5 => Blurb("Deep Cleaning (Scaling)",
      "Restore gum health with a thorough cleaning below the gumline.",
      "1-2 visits", "🧹", "from-indigo-400 to-blue-500")
    case 6 => Blurb("Dental Implants",
      "Permanent, natural-looking replacement for missing teeth.",
      "3-6 months total process", "🦷", "from-slate-400 to-zinc-500")
    case 7 => Blurb("Dental Crowns",
      "Restore damaged teeth with custom-fitted, natural-looking caps.",
      "2 visits over 2 weeks", "👑", "from-amber-400 to-orange-500")
    case 8 => Blurb("Gum Contouring",
      "Reshape your gumline for a more balanced, beautiful smile.",
      "1 visit", "✂️", "from-rose-400 to-pink-500")
    case 9 => Blurb("Smile Makeover Consultation",
      "Comprehensive evaluation to design your perfect smile transformation.",
      "1 consultation visit", "🎨", "from-violet-400 to-purple-500")
    case 10 => Blurb("Sedation Dentistry",
      "Relaxation options for a comfortable, anxiety-free experience.",
      "Available with any procedure", "😌", "from-sky-400 to-blue-500")
    case _ => Blurb("Anxiety-Free Experience",
      "We specialize in making nervous patients feel at ease. You're in caring hands!",
      "Every visit", "🤗", "from-pink-400 to-rose-500")
  }

  /** A catalogue as the seeding reads it: question `i`'s wording, category,
      multi-select flag and option point maps, option `j`'s label and emoji,
      procedure `i`'s key, category and texts. Facts about what seeding does
      are stated for any catalogue, so the solver never unfolds the data. */
  datatype Catalogue = Catalogue(
    wording: nat -> Wording, category: nat -> string, multiSelect: nat -> int,
    weights: nat -> seq<seq<Weight>>, caption: (nat, nat) -> (string, string),
    procedureKey: nat -> Treatment, procedureCategory: nat -> string, blurb: nat -> Blurb)

  /** The catalogue `initQuizTables` seeds. */
  const SeedCatalogue := Catalogue(
    QuestionWording, QuestionCategory, MultiSelectFlag, OptionWeights, OptionCaption,
    ProcedureKey, ProcedureCategory, ProcedureBlurb)

  /** A point map the quiz can total: every weight is positive and no
      treatment is named twice. */
  predicate WellWeighted(ws: seq<Weight>) {
    && (forall k :: 0 <= k < |ws| ==> ws[k].points > 0)
    && (forall k, l :: 0 <= k < l < |ws| ==> ws[k].key != ws[l].key)
  }

  predicate WellWeightedOptions(ws: seq<seq<Weight>>) {
    forall j :: 0 <= j < |ws| ==> 0 < |ws[j]| && WellWeighted(ws[j])
  }

  /** Only the "concerns" question accepts several answers, and the eight
      questions each belong to their own category. */
  lemma SeedQuestionsShape()
    ensures forall i :: 0 <= i < QuestionCount ==> MultiSelectFlag(i) in {0, 1}
    ensures forall i :: 0 <= i < QuestionCount ==> (MultiSelectFlag(i) == 1 <==> i == 4)
    ensures QuestionCategory(4) == "concerns"
    ensures forall i, j :: 0 <= i < j < QuestionCount ==> QuestionCategory(i) != QuestionCategory(j)
  {
  }

  /** Every question offers at least four answers, and each answer's point
      map is nonempty, positive and free of repeated treatments. */
  lemma SeedQuestionsWeighted()
    ensures forall i :: 0 <= i < QuestionCount ==> 4 <= |OptionWeights(i)|
    ensures forall i, j :: 0 <= i < QuestionCount && 0 <= j < |OptionWeights(i)| ==>
      0 < |OptionWeights(i)[j]| && WellWeighted(OptionWeights(i)[j])
  {
    forall i | 0 <= i < QuestionCount
      ensures 4 <= |OptionWeights(i)| && WellWeightedOptions(OptionWeights(i))
    {
      QuestionWeighted(i);
    }
  }

  lemma QuestionWeighted(i: nat)
    requires i < QuestionCount
    ensures 4 <= |OptionWeights(i)| && WellWeightedOptions(OptionWeights(i))
  {
    var ws := OptionWeights(i);
    forall j | 0 <= j < |ws| ensures 0 < |ws[j]| && WellWeighted(ws[j]) {
      OptionWeighted(i, j);
    }
  }

  lemma OptionWeighted(i: nat, j: nat)
    requires i < QuestionCount && j < |OptionWeights(i)|
    ensures 0 < |OptionWeights(i)[j]| && WellWeighted(OptionWeights(i)[j])
  {
  }

  /** Every point weight a catalogue's answers award is positive. */
  predicate PositiveWeights(cat: Catalogue) {
    forall i, j, k :: 0 <= i < QuestionCount && 0 <= j < |cat.weights(i)| && 0 <= k < |cat.weights(i)[j]| ==>
      cat.weights(i)[j][k].points > 0
  }

  lemma SeedCataloguePositive()
    ensures PositiveWeights(SeedCatalogue)
  {
    SeedQuestionsWeighted();
  }

  /** Some seeded procedure carries key `t`. */
  predicate HasProcedure(t: Treatment) {
    exists i :: 0 <= i < ProcedureCount && ProcedureKey(i) == t
  }

  /** Some seeded answer awards points to `t`. */
  predicate Scored(t: Treatment) {
    exists i, j, k :: 0 <= i < QuestionCount && 0 <= j < |OptionWeights(i)| && 0 <= k < |OptionWeights(i)[j]|
      && OptionWeights(i)[j][k].key == t
  }

  /** The twelve procedures carry distinct keys (the column is UNIQUE, so
      the seed inserts without error) and fall into five categories. */
  lemma SeedProceduresShape()
    ensures forall i, j :: 0 <= i < j < ProcedureCount ==> ProcedureKey(i) != ProcedureKey(j)
    ensures forall i :: 0 <= i < ProcedureCount ==>
      ProcedureCategory(i) in {"cosmetic", "orthodontic", "preventive", "restorative", "comfort"}
  {
  }

  /** Every treatment is scored by some answer, but four of them — bridges,
      full makeover, orthodontics and periodontal — have no procedure to
      recommend. */
  lemma SeedCoverage(t: Treatment)
    ensures Scored(t)
    ensures HasProcedure(t) <==> t !in {Bridges, FullMakeover, Orthodontics, Periodontal}
  {
    match t
    case Whitening => assert OptionWeights(0)[0][0].key == t; assert ProcedureKey(0) == t;
    case Veneers => assert OptionWeights(0)[0][1].key == t; assert ProcedureKey(2) == t;
    case Invisalign => assert OptionWeights(0)[1][0].key == t; assert ProcedureKey(1) == t;
    case Preventive => assert OptionWeights(0)[2][0].key == t; assert ProcedureKey(4) == t;
    case DeepCleaning => assert OptionWeights(0)[2][1].key == t; assert ProcedureKey(5) == t;
    case Implants => assert OptionWeights(0)[3][0].key == t; assert ProcedureKey(6) == t;
    case Bridges => assert OptionWeights(0)[3][1].key == t;
    case Cosmetic => assert OptionWeights(0)[4][0].key == t; assert ProcedureKey(9) == t;
    case FullMakeover => assert OptionWeights(1)[3][1].key == t;
    case Bonding => assert OptionWeights(2)[3][2].key == t; assert ProcedureKey(3) == t;
    case Orthodontics => assert OptionWeights(3)[3][1].key == t;
    case GumContouring => assert OptionWeights(4)[2][0].key == t; assert ProcedureKey(8) == t;
    case Crowns => assert OptionWeights(4)[3][0].key == t; assert ProcedureKey(7) == t;
    case Periodontal => assert OptionWeights(5)[2][1].key == t;
    case Sedation => assert OptionWeights(7)[2][0].key == t; assert ProcedureKey(10) == t;
    case AnxietyFree => assert OptionWeights(7)[3][1].key == t; assert ProcedureKey(11) == t;
  }
}
