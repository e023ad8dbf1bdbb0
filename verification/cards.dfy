/** Playing cards (main.py, class `Card`).

    The original keys its value table by face strings and checks suits
    against a list of names; here the thirteen faces and four suits are
    datatypes, and `NewCard` is the string-checking constructor. */
module Cards {
  import opened Wrappers

  datatype Face = Ace | Two | Three | Four | Five | Six | Seven | Eight | Nine
                | Ten | Jack | Queen | King

  datatype Suit = Spades | Diamonds | Clubs | Hearts

  /** The keys of `card_values`, in the table's order. */
  const FaceKeys: seq<string> :=
    ["Ace", "2", "3", "4", "5", "6", "7", "8", "9", "10", "Jack", "Queen", "King"]

  /** The faces in the same order as `FaceKeys`. */
  const AllFaces: seq<Face> :=
    [Ace, Two, Three, Four, Five, Six, Seven, Eight, Nine, Ten, Jack, Queen, King]

  /** The entries of `suits`, in order. */
  const SuitNames: seq<string> := ["Spades", "Diamonds", "Clubs", "Hearts"]

  const AllSuits: seq<Suit> := [Spades, Diamonds, Clubs, Hearts]

  /** The `card_values` key that names face `f`. */
  function FaceKey(f: Face): string {
    match f
    case Ace => "Ace"
    case Two => "2"
    case Three => "3"
    case Four => "4"
    case Five => "5"
    case Six => "6"
    case Seven => "7"
    case Eight => "8"
    case Nine => "9"
    case Ten => "10"
    case Jack => "Jack"
    case Queen => "Queen"
    case King => "King"
  }

  function SuitName(s: Suit): string {
    match s
    case Spades => "Spades"
    case Diamonds => "Diamonds"
    case Clubs => "Clubs"
    case Hearts => "Hearts"
  }

  /** The list `card_values[face]`: every point value the face may count as. */
  function PointValues(f: Face): seq<int> {
    match f
    case Ace => [1, 11]
    case Two => [2]
    case Three => [3]
    case Four => [4]
    case Five => [5]
    case Six => [6]
    case Seven => [7]
    case Eight => [8]
    case Nine => [9]
    case Ten => [10]
    case Jack => [10]
    case Queen => [10]
    case King => [10]
  }

  /** Faces worth ten points. */
  predicate IsTenCard(f: Face) {
    f == Ten || f == Jack || f == Queen || f == King
  }

  datatype Card = Card(face: Face, suit: Suit) {
    /** The `value` attribute of a constructed card. */
    function Value(): seq<int> {
      PointValues(face)
    }
  }

  /** The two `ValueError`s the constructor raises. */
  datatype CardError = InvalidFace(face: string) | InvalidSuit(suit: string)

  /** Looks a face key up in the value table. */
  function ParseFace(key: string): (r: Option<Face>)
    ensures r.Some? <==> key in FaceKeys
    ensures r.Some? ==> FaceKey(r.value) == key
  {
    if key == "Ace" then Some(Ace)
    else if key == "2" then Some(Two)
    else if key == "3" then Some(Three)
    else if key == "4" then Some(Four)
    else if key == "5" then Some(Five)
    else if key == "6" then Some(Six)
    else if key == "7" then Some(Seven)
    else if key == "8" then Some(Eight)
    else if key == "9" then Some(Nine)
    else if key == "10" then Some(Ten)
    else if key == "Jack" then Some(Jack)
    else if key == "Queen" then Some(Queen)
    else if key == "King" then Some(King)
    else None
  }

  /** Looks a suit name up in the suit list. */
  function ParseSuit(name: string): (r: Option<Suit>)
    ensures r.Some? <==> name in SuitNames
    ensures r.Some? ==> SuitName(r.value) == name
  {
    if name == "Spades" then Some(Spades)
    else if name == "Diamonds" then Some(Diamonds)
    else if name == "Clubs" then Some(Clubs)
    else if name == "Hearts" then Some(Hearts)
    else None
  }

  /** `Card(face, suit)`: the face is checked before the suit, so a call with
      both wrong reports the face. On success the card carries the face's
      list of point values. */
  function NewCard(face: string, suit: string): (r: Result<Card, CardError>)
    ensures r.Success? <==> face in FaceKeys && suit in SuitNames
    ensures face !in FaceKeys ==> r == Failure(InvalidFace(face))
    ensures face in FaceKeys && suit !in SuitNames ==> r == Failure(InvalidSuit(suit))
    ensures r.Success? ==> FaceKey(r.value.face) == face && SuitName(r.value.suit) == suit
  {
    match ParseFace(face)
    case None => Failure(InvalidFace(face))
    case Some(f) =>
      match ParseSuit(suit)
      case None => Failure(InvalidSuit(suit))
      case Some(s) => Success(Card(f, s))
  }

  /** Each face key parses back to its face. */
  lemma ParseFaceKey(f: Face)
    ensures ParseFace(FaceKey(f)) == Some(f)
  {
  }

  /** Each suit name parses back to its suit. */
  lemma ParseSuitName(s: Suit)
    ensures ParseSuit(SuitName(s)) == Some(s)
  {
  }

  /** Every card can be built from its own face key and suit name, and the
      built card's value is the face's entry of the value table. */
  lemma NewCardRoundTrip(f: Face, s: Suit)
    ensures NewCard(FaceKey(f), SuitName(s)) == Success(Card(f, s))
    ensures NewCard(FaceKey(f), SuitName(s)).value.Value() == PointValues(f)
  {
  }

  /** The value table: an Ace counts 1 or 11, every other face one value
      between 2 and 10, and only the 10, Jack, Queen and King count 10. */
  lemma PointValueFacts(f: Face)
    ensures forall v :: v in PointValues(f) ==> 1 <= v <= 11
    ensures |PointValues(f)| == if f == Ace then 2 else 1
    ensures 11 in PointValues(f) <==> f == Ace
    ensures 10 in PointValues(f) <==> IsTenCard(f)
  {
  }

  /** Position of a face in `AllFaces` (and of its key in `FaceKeys`). */
  function FaceIndex(f: Face): (i: nat)
    ensures i < |AllFaces| && AllFaces[i] == f && FaceKeys[i] == FaceKey(f)
  {
    match f
    case Ace => 0
    case Two => 1
    case Three => 2
    case Four => 3
    case Five => 4
    case Six => 5
    case Seven => 6
    case Eight => 7
    case Nine => 8
    case Ten => 9
    case Jack => 10
    case Queen => 11
    case King => 12
  }

  /** Position of a suit in `AllSuits` (and of its name in `SuitNames`). */
  function SuitIndex(s: Suit): (i: nat)
    ensures i < |AllSuits| && AllSuits[i] == s && SuitNames[i] == SuitName(s)
  {
    match s
    case Spades => 0
    case Diamonds => 1
    case Clubs => 2
    case Hearts => 3
  }
}
