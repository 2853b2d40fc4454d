/**
 * The reel view: a full-screen, one-item-at-a-time view over a given list,
 * stepped by swipes and by the arrow keys, with a price badge derived from the
 * item's difficulty.
 */
module ReelView {
  import opened Wrappers
  import opened SwipTypes
  import opened Feeds

  /** A key press: the two arrow keys the view listens to, or any other key. */
  datatype KeyPress = ArrowUp | ArrowDown | OtherKey

  /**
   * The step a key asks for: ArrowUp goes to the previous item and ArrowDown
   * to the next (the opposite of the swipe names); other keys do nothing.
   */
  function KeyDirection(k: KeyPress): (r: Option<Direction>)
    ensures r.None? <==> k == OtherKey
  {
    match k
    case ArrowUp => Some(Down)
    case ArrowDown => Some(Up)
    case OtherKey => None
  }

  /** The key handler over `n` items: ArrowUp moves back while not at the first item, ArrowDown forward while not at the last. */
  function KeyStep(index: int, k: KeyPress, n: int): (r: int)
    ensures k == ArrowUp && index > 0 ==> r == index - 1
    ensures k == ArrowDown && index < n - 1 ==> r == index + 1
    ensures k == OtherKey || (k == ArrowUp && index <= 0) || (k == ArrowDown && index >= n - 1) ==> r == index
  {
    match KeyDirection(k)
    case None => index
    case Some(d) => BoundedStep(index, d, n)
  }

  /** Any input the view reacts to. */
  datatype Input = Swiped(dir: Direction) | Pressed(key: KeyPress)

  function InputStep(index: int, e: Input, n: int): int {
    match e
    case Swiped(d) => BoundedStep(index, d, n)
    case Pressed(k) => KeyStep(index, k, n)
  }

  function InputSteps(index: int, es: seq<Input>, n: int): int
    decreases |es|
  {
    if es == [] then index else InputSteps(InputStep(index, es[0], n), es[1..], n)
  }

  /** Over a non-empty list, no mix of swipes and key presses takes the cursor outside it. */
  lemma {:induction false} InputsStayInRange(index: int, es: seq<Input>, n: int)
    requires 0 <= index < n
    ensures 0 <= InputSteps(index, es, n) < n
    decreases |es|
  {
    if es != [] {
      InputsStayInRange(InputStep(index, es[0], n), es[1..], n);
    }
  }

  /** `₹` followed by the amount. */
  function Rupees(amount: string): (r: string)
    ensures |r| == |amount| + 1 && r[0] == '\U{20B9}' && r[1..] == amount
  {
    "\U{20B9}" + amount
  }

  /**
   * `getPrice`: ₹999 for Intermediate, ₹1,499 for Advanced, and ₹499 for
   * Beginner and every other difficulty.
   */
  function GetPrice(difficulty: string): (r: string)
    ensures r == Rupees("999") <==> difficulty == "Intermediate"
    ensures r == Rupees("1,499") <==> difficulty == "Advanced"
    ensures r == Rupees("499") <==> difficulty != "Intermediate" && difficulty != "Advanced"
  {
    match difficulty
    case "Beginner" => Rupees("499")
    case "Intermediate" => Rupees("999")
    case "Advanced" => Rupees("1,499")
    case _ => Rupees("499")
  }

  /** An empty list renders nothing, whatever the cursor. */
  lemma EmptyRendersNothing(index: int)
    ensures ItemAt([], index) == None
  {
  }

  /** The view's own state. */
  class Reel {
    var currentIndex: int
    var isPlaying: bool
    var isMuted: bool

    constructor ()
      ensures currentIndex == 0 && !isPlaying && isMuted
    {
      currentIndex, isPlaying, isMuted := 0, false, true;
    }

    /** A swipe over `n` items: playback stops only when the cursor actually moves. */
    method HandleSwipe(dir: Direction, n: int)
      modifies this`currentIndex, this`isPlaying
      ensures currentIndex == BoundedStep(old(currentIndex), dir, n)
      ensures isPlaying == (old(isPlaying) && currentIndex == old(currentIndex))
    {
      var next := BoundedStep(currentIndex, dir, n);
      if next != currentIndex {
        currentIndex := next;
        isPlaying := false;
      }
    }

    /** A key press over `n` items; playback is left as it is. */
    method HandleKey(k: KeyPress, n: int)
      modifies this`currentIndex
      ensures currentIndex == KeyStep(old(currentIndex), k, n)
      ensures 0 <= old(currentIndex) < n ==> 0 <= currentIndex < n
    {
      currentIndex := KeyStep(currentIndex, k, n);
    }

    method TogglePlaying()
      modifies this`isPlaying
      ensures isPlaying == !old(isPlaying)
    {
      isPlaying := !isPlaying;
    }
  }
}
