/**
 * The swips context: the same like/dislike/wishlist/enrol rules as the swips
 * store, kept as four sets of item ids that each toggle replaces with an
 * updated copy.
 */
module SwipsContext {

  /** The four id sets. */
  datatype Marks = Marks(liked: set<string>, disliked: set<string>, wishlisted: set<string>, enrolled: set<string>)

  /** The four toggles. */
  datatype Toggle = Like | Dislike | Wishlist | Enrol

  /** Removes `id` when present, adds it otherwise. */
  function Flip(s: set<string>, id: string): (r: set<string>)
    ensures id in r <==> id !in s
    ensures forall x :: x != id ==> (x in r <==> x in s)
  {
    if id in s then s - {id} else s + {id}
  }

  /**
   * One toggle. Adding a like removes a dislike of the same id and vice versa;
   * removing one leaves the other set untouched; the wishlist and enrolment
   * toggles touch only their own set.
   */
  function ApplyToggle(m: Marks, t: Toggle, id: string): (r: Marks)
    ensures t.Like? ==> r.liked == Flip(m.liked, id) && r.wishlisted == m.wishlisted && r.enrolled == m.enrolled
    ensures t.Like? && id in m.liked ==> r.disliked == m.disliked
    ensures t.Like? && id !in m.liked ==> r.disliked == m.disliked - {id}
    ensures t.Dislike? ==> r.disliked == Flip(m.disliked, id) && r.wishlisted == m.wishlisted && r.enrolled == m.enrolled
    ensures t.Dislike? && id in m.disliked ==> r.liked == m.liked
    ensures t.Dislike? && id !in m.disliked ==> r.liked == m.liked - {id}
    ensures t.Wishlist? ==> r == m.(wishlisted := Flip(m.wishlisted, id))
    ensures t.Enrol? ==> r == m.(enrolled := Flip(m.enrolled, id))
  {
    match t
    case Like =>
      if id in m.liked then m.(liked := m.liked - {id})
      else m.(liked := m.liked + {id}, disliked := m.disliked - {id})
    case Dislike =>
      if id in m.disliked then m.(disliked := m.disliked - {id})
      else m.(disliked := m.disliked + {id}, liked := m.liked - {id})
    case Wishlist => m.(wishlisted := Flip(m.wishlisted, id))
    case Enrol => m.(enrolled := Flip(m.enrolled, id))
  }

  /** No id is both liked and disliked. */
  predicate Disjoint(m: Marks) {
    m.liked !! m.disliked
  }

  /** A toggle keeps the liked and disliked sets disjoint. */
  lemma ToggleKeepsDisjoint(m: Marks, t: Toggle, id: string)
    requires Disjoint(m)
    ensures Disjoint(ApplyToggle(m, t, id))
  {
  }

  /** The sets after a sequence of toggles, in order. */
  function ApplyAll(m: Marks, toggles: seq<(Toggle, string)>): Marks
    decreases |toggles|
  {
    if toggles == [] then m
    else ApplyAll(ApplyToggle(m, toggles[0].0, toggles[0].1), toggles[1..])
  }

  /** Liked and disliked, once disjoint, stay disjoint under any sequence of toggles. */
  lemma {:induction false} AllKeepDisjoint(m: Marks, toggles: seq<(Toggle, string)>)
    requires Disjoint(m)
    ensures Disjoint(ApplyAll(m, toggles))
    decreases |toggles|
  {
    if toggles != [] {
      ToggleKeepsDisjoint(m, toggles[0].0, toggles[0].1);
      AllKeepDisjoint(ApplyToggle(m, toggles[0].0, toggles[0].1), toggles[1..]);
    }
  }

  /** Two wishlist or enrolment toggles of the same id restore the sets. */
  lemma FlipTwice(m: Marks, t: Toggle, id: string)
    requires t.Wishlist? || t.Enrol?
    ensures ApplyToggle(ApplyToggle(m, t, id), t, id) == m
  {
  }

  /** Provider state: the four sets. */
  class Context {
    var likedItems: set<string>
    var dislikedItems: set<string>
    var wishlistedItems: set<string>
    var enrolledItems: set<string>

    /** The sets as one value. */
    function State(): Marks
      reads this
    {
      Marks(likedItems, dislikedItems, wishlistedItems, enrolledItems)
    }

    ghost predicate Valid()
      reads this
    {
      Disjoint(State())
    }

    /** The provider starting from the given (persisted) sets. */
    constructor (liked: set<string>, disliked: set<string>, wishlisted: set<string>, enrolled: set<string>)
      ensures State() == Marks(liked, disliked, wishlisted, enrolled)
    {
      likedItems, dislikedItems := liked, disliked;
      wishlistedItems, enrolledItems := wishlisted, enrolled;
    }

    /** Un-likes `id` if liked; otherwise likes it and drops its dislike. */
    method ToggleLike(id: string)
      modifies this`likedItems, this`dislikedItems
      ensures old(Valid()) ==> Valid()
      ensures State() == ApplyToggle(old(State()), Like, id)
    {
      if id in likedItems {
        likedItems := likedItems - {id};
      } else {
        likedItems := likedItems + {id};
        dislikedItems := dislikedItems - {id};
      }
    }

    /** Un-dislikes `id` if disliked; otherwise dislikes it and drops its like. */
    method ToggleDislike(id: string)
      modifies this`likedItems, this`dislikedItems
      ensures old(Valid()) ==> Valid()
      ensures State() == ApplyToggle(old(State()), Dislike, id)
    {
      if id in dislikedItems {
        dislikedItems := dislikedItems - {id};
      } else {
        dislikedItems := dislikedItems + {id};
        likedItems := likedItems - {id};
      }
    }

    /** Flips `id` in the wishlist. */
    method ToggleWishlist(id: string)
      modifies this`wishlistedItems
      ensures State() == ApplyToggle(old(State()), Wishlist, id)
    {
      if id in wishlistedItems {
        wishlistedItems := wishlistedItems - {id};
      } else {
        wishlistedItems := wishlistedItems + {id};
      }
    }

    /** Flips `id` in the enrolled set. */
    method ToggleEnrolled(id: string)
      modifies this`enrolledItems
      ensures State() == ApplyToggle(old(State()), Enrol, id)
    {
      if id in enrolledItems {
        enrolledItems := enrolledItems - {id};
      } else {
        enrolledItems := enrolledItems + {id};
      }
    }

    /** 1 for a liked id, 0 otherwise. */
    function GetLikeCount(id: string): (n: int)
      reads this
      ensures n == 1 <==> id in likedItems
      ensures n == 0 <==> id !in likedItems
    {
      if id in likedItems then 1 else 0
    }

    /** 1 for a disliked id, 0 otherwise. */
    function GetDislikeCount(id: string): (n: int)
      reads this
      ensures n == 1 <==> id in dislikedItems
      ensures n == 0 <==> id !in dislikedItems
    {
      if id in dislikedItems then 1 else 0
    }

    predicate IsLiked(id: string)
      reads this
      ensures IsLiked(id) <==> Member(State(), Like, id)
    {
      id in likedItems
    }

    predicate IsDisliked(id: string)
      reads this
      ensures IsDisliked(id) <==> Member(State(), Dislike, id)
    {
      id in dislikedItems
    }

    predicate IsWishlisted(id: string)
      reads this
      ensures IsWishlisted(id) <==> Member(State(), Wishlist, id)
    {
      id in wishlistedItems
    }

    predicate IsEnrolled(id: string)
      reads this
      ensures IsEnrolled(id) <==> Member(State(), Enrol, id)
    {
      id in enrolledItems
    }
  }

  /** A toggle flips the answer of its own query for that id. */
  lemma ToggleFlipsQuery(m: Marks, t: Toggle, id: string)
    ensures Member(ApplyToggle(m, t, id), t, id) == !Member(m, t, id)
  {
  }

  /** Membership of `id` in the set a toggle governs. */
  predicate Member(m: Marks, t: Toggle, id: string) {
    match t
    case Like => id in m.liked
    case Dislike => id in m.disliked
    case Wishlist => id in m.wishlisted
    case Enrol => id in m.enrolled
  }
}
