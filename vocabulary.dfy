/**
 * The gesture vocabulary of the LSE (Spanish Sign Language) recogniser:
 * the labels the classifier may name, the table that maps each label's key
 * to the text shown on screen, and the defaulting lookup used on it.
 */
module Vocabulary {
  import opened Wrappers

  /** One constructor per key of the table, in the table's order. */
  datatype Label =
    | ManoAbierta | PulgarArriba | SenaPaz | SenaOk | Senalar | Corazon
    | Uno | Dos | Tres | Cuatro | Cinco | Seis | Siete | Ocho | Nueve | Diez
    | A | B | C
    | Gracias | PorFavor | Amor

  /** The label-to-meaning table: basic signs, the numbers one to ten, three letters, three phrases. */
  const SeniasLse: map<string, string> := map[
    "mano_abierta" := "Hola",
    "pulgar_arriba" := "Bien",
    "seña_paz" := "Paz",
    "seña_ok" := "De acuerdo",
    "señalar" := "Mira/Allí",
    "corazón" := "Te quiero",
    "uno" := "1",
    "dos" := "2",
    "tres" := "3",
    "cuatro" := "4",
    "cinco" := "5",
    "seis" := "6",
    "siete" := "7",
    "ocho" := "8",
    "nueve" := "9",
    "diez" := "10",
    "a" := "A",
    "b" := "B",
    "c" := "C",
    "gracias" := "Gracias",
    "por_favor" := "Por favor",
    "amor" := "Amor"
  ]

  /** The placeholder shown for a key the table does not hold. */
  const Unknown: string := "Seña desconocida"

  /** The string the classifier returns for a label; every such string is a key of the table. */
  function Key(l: Label): (key: string)
    ensures key in SeniasLse
  {
    match l
    case ManoAbierta => "mano_abierta"
    case PulgarArriba => "pulgar_arriba"
    case SenaPaz => "seña_paz"
    case SenaOk => "seña_ok"
    case Senalar => "señalar"
    case Corazon => "corazón"
    case Uno => "uno"
    case Dos => "dos"
    case Tres => "tres"
    case Cuatro => "cuatro"
    case Cinco => "cinco"
    case Seis => "seis"
    case Siete => "siete"
    case Ocho => "ocho"
    case Nueve => "nueve"
    case Diez => "diez"
    case A => "a"
    case B => "b"
    case C => "c"
    case Gracias => "gracias"
    case PorFavor => "por_favor"
    case Amor => "amor"
  }

  /**
   * The label whose key is the given string, if any: the keys of the table are
   * exactly the keys of the labels.
   */
  function LabelOf(key: string): (l: Option<Label>)
    ensures l.Some? ==> Key(l.value) == key
  {
    if key == "mano_abierta" then Some(ManoAbierta)
    else if key == "pulgar_arriba" then Some(PulgarArriba)
    else if key == "seña_paz" then Some(SenaPaz)
    else if key == "seña_ok" then Some(SenaOk)
    else if key == "señalar" then Some(Senalar)
    else if key == "corazón" then Some(Corazon)
    else if key == "uno" then Some(Uno)
    else if key == "dos" then Some(Dos)
    else if key == "tres" then Some(Tres)
    else if key == "cuatro" then Some(Cuatro)
    else if key == "cinco" then Some(Cinco)
    else if key == "seis" then Some(Seis)
    else if key == "siete" then Some(Siete)
    else if key == "ocho" then Some(Ocho)
    else if key == "nueve" then Some(Nueve)
    else if key == "diez" then Some(Diez)
    else if key == "a" then Some(A)
    else if key == "b" then Some(B)
    else if key == "c" then Some(C)
    else if key == "gracias" then Some(Gracias)
    else if key == "por_favor" then Some(PorFavor)
    else if key == "amor" then Some(Amor)
    else None
  }

  /** The keys of the table are exactly the keys of the labels. */
  lemma TableKeysAreLabels(key: string)
    ensures key in SeniasLse <==> LabelOf(key).Some?
  {
  }

  /** Distinct labels have distinct keys: parsing a label's key gives the label back. */
  lemma KeyRoundTrip(l: Label)
    ensures LabelOf(Key(l)) == Some(l)
  {
  }

  /**
   * The lookup with a default: a key of the table yields its meaning, any other
   * string yields the placeholder. It never fails and never yields the empty string,
   * and no key of the table is mapped to the placeholder itself.
   */
  function Describe(key: string): (meaning: string)
    ensures |meaning| > 0
    ensures key in SeniasLse ==> meaning == SeniasLse[key]
    ensures meaning == Unknown <==> key !in SeniasLse
  {
    if key in SeniasLse then SeniasLse[key] else Unknown
  }
}
