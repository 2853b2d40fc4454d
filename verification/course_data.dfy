/**
 * The course catalogue hook: the seeded course list, enrolment and wishlist
 * updates that map over it, and the lists derived from it (enrolled courses,
 * wishlisted courses, and the first three courses of each subject).
 */
module CourseData {
  import opened Wrappers
  import opened Seqs

  /**
   * One course. `addedDate` is the ISO date `YYYY-MM-DD` written as the integer
   * YYYYMMDD, which orders dates the same way; `progress` is optional.
   */
  datatype Course = Course(
    id: int,
    title: string,
    subject: string,
    author: string,
    students: int,
    level: string,
    progress: Option<int>,
    price: int,
    isFree: bool,
    tags: seq<string>,
    isEnrolled: bool,
    isInWishlist: bool,
    addedDate: int)

  /** The eighteen courses the hook starts with. */
  function SeedCourses(): (r: seq<Course>)
    ensures |r| == 18
  {
    [
      Course(1, "Complete React Development Course", "Programming", "John Smith", 15420, "Intermediate",
        Some(65), 2999, false, ["React", "JavaScript", "Frontend"], true, false, 20240115),
      Course(2, "Advanced Python Programming", "Programming", "Sarah Johnson", 8930, "Advanced",
        Some(100), 4999, false, ["Python", "Backend", "AI"], true, false, 20240120),
      Course(3, "Machine Learning Fundamentals", "Data Science", "Dr. Mike Chen", 12340, "Beginner",
        None, 5999, false, ["ML", "Python", "Data Science"], false, true, 20240125),
      Course(4, "Full Stack Web Development", "Programming", "Alex Rodriguez", 20150, "Intermediate",
        Some(23), 7999, false, ["React", "Node.js", "MongoDB"], true, false, 20240201),
      Course(5, "Digital Marketing Mastery", "Marketing", "Emma Wilson", 9870, "Beginner",
        None, 0, true, ["Marketing", "SEO", "Social Media"], false, true, 20240205),
      Course(6, "UI/UX Design Principles", "Design", "David Park", 11230, "Intermediate",
        None, 3999, false, ["UI", "UX", "Figma"], true, false, 20240210),
      Course(7, "Photography Basics", "Photography", "Lisa Chen", 6540, "Beginner",
        None, 0, true, ["Photography", "Lighting", "Composition"], false, false, 20240215),
      Course(8, "Data Analysis with Excel", "Data Science", "Robert Kumar", 14560, "Beginner",
        None, 1999, false, ["Excel", "Data", "Analytics"], false, false, 20240220),
      Course(9, "Graphic Design with Adobe", "Design", "Maya Singh", 8900, "Intermediate",
        None, 3499, false, ["Photoshop", "Illustrator", "Design"], false, true, 20240225),
      Course(10, "Financial Planning 101", "Finance", "James Miller", 5670, "Beginner",
        None, 0, true, ["Finance", "Investment", "Planning"], false, false, 20240301),
      Course(11, "Mobile App Development", "Programming", "Nina Patel", 7890, "Advanced",
        None, 6999, false, ["React Native", "Mobile", "iOS", "Android"], false, false, 20240305),
      Course(12, "Music Production Basics", "Music", "Chris Taylor", 4320, "Beginner",
        None, 2499, false, ["Music", "Production", "Audio"], false, false, 20240310),
      Course(13, "Cloud Computing with AWS", "Technology", "Kevin Wong", 10230, "Advanced",
        None, 8999, false, ["AWS", "Cloud", "DevOps"], true, false, 20240315),
      Course(14, "Chemistry for Beginners", "Science", "Dr. Rachel Green", 3450, "Beginner",
        None, 1499, false, ["Chemistry", "Science", "Lab"], false, false, 20240320),
      Course(15, "Content Writing Masterclass", "Writing", "Sophie Brown", 6780, "Intermediate",
        None, 0, true, ["Writing", "Content", "Copywriting"], false, true, 20240325),
      Course(16, "Blockchain Development", "Programming", "Marcus Johnson", 5430, "Advanced",
        None, 9999, false, ["Blockchain", "Crypto", "Web3"], false, false, 20240330),
      Course(17, "Video Editing Pro", "Media", "Tom Anderson", 7650, "Intermediate",
        None, 4499, false, ["Video", "Editing", "Premiere"], false, false, 20240401),
      Course(18, "Language Learning Spanish", "Languages", "Isabella Rodriguez", 12890, "Beginner",
        None, 2999, false, ["Spanish", "Language", "Conversation"], false, false, 20240405)
    ]
  }

  /** Every course id occurs once. */
  predicate UniqueIds(courses: seq<Course>) {
    forall i, j :: 0 <= i < j < |courses| ==> courses[i].id != courses[j].id
  }

  /** In the seed list ids are unique and a course is free exactly when its price is 0. */
  lemma SeedWellFormed()
    ensures UniqueIds(SeedCourses())
    ensures forall i :: 0 <= i < 18 ==> (SeedCourses()[i].isFree <==> SeedCourses()[i].price == 0)
  {
    var s := SeedCourses();
    forall i, j | 0 <= i < j < |s| ensures s[i].id != s[j].id {
      assert forall k :: 0 <= k < |s| ==> s[k].id == k + 1;
    }
  }

  // ---------------------------------------------------------------------------
  // Updates: each maps over the list and rewrites only the matching course.

  /** `enrollCourse(id)`: the matching course becomes enrolled with progress 0. */
  function Enroll(courses: seq<Course>, id: int): (r: seq<Course>)
    ensures |r| == |courses|
    ensures forall i :: 0 <= i < |r| && courses[i].id == id ==>
              r[i] == courses[i].(isEnrolled := true, progress := Some(0))
    ensures forall i :: 0 <= i < |r| && courses[i].id != id ==> r[i] == courses[i]
  {
    seq(|courses|, i requires 0 <= i < |courses| =>
      if courses[i].id == id then courses[i].(isEnrolled := true, progress := Some(0)) else courses[i])
  }

  /** `toggleWishlist(id)`: the matching course's wishlist flag flips. */
  function ToggleWish(courses: seq<Course>, id: int): (r: seq<Course>)
    ensures |r| == |courses|
    ensures forall i :: 0 <= i < |r| && courses[i].id == id ==>
              r[i] == courses[i].(isInWishlist := !courses[i].isInWishlist)
    ensures forall i :: 0 <= i < |r| && courses[i].id != id ==> r[i] == courses[i]
  {
    seq(|courses|, i requires 0 <= i < |courses| =>
      if courses[i].id == id then courses[i].(isInWishlist := !courses[i].isInWishlist) else courses[i])
  }

  /** Both updates keep every course's position and id. */
  lemma UpdatesKeepIds(courses: seq<Course>, id: int)
    ensures forall i :: 0 <= i < |courses| ==> Enroll(courses, id)[i].id == courses[i].id
    ensures forall i :: 0 <= i < |courses| ==> ToggleWish(courses, id)[i].id == courses[i].id
  {
  }

  /** Toggling the wishlist twice restores the list. */
  lemma ToggleWishTwice(courses: seq<Course>, id: int)
    ensures ToggleWish(ToggleWish(courses, id), id) == courses
  {
  }

  /** Enrolling twice is enrolling once. */
  lemma EnrollIdempotent(courses: seq<Course>, id: int)
    ensures Enroll(Enroll(courses, id), id) == Enroll(courses, id)
  {
  }

  // ---------------------------------------------------------------------------
  // Derived lists

  /** The filter predicates of the derived lists. */
  const IsEnrolled: Course -> bool := (c: Course) => c.isEnrolled
  const IsWishlisted: Course -> bool := (c: Course) => c.isInWishlist
  function OfSubject(name: string): Course -> bool {
    (c: Course) => c.subject == name
  }

  /** `courses.filter(c => c.isEnrolled)`. */
  function EnrolledCourses(courses: seq<Course>): (r: seq<Course>)
    ensures forall i :: 0 <= i < |r| ==> r[i].isEnrolled
    ensures forall i :: 0 <= i < |courses| && courses[i].isEnrolled ==> courses[i] in r
    ensures multiset(r) <= multiset(courses)
  {
    FilterSpec(courses, IsEnrolled);
    Filter(courses, IsEnrolled)
  }

  /** `courses.filter(c => c.isInWishlist)`. */
  function WishlistCourses(courses: seq<Course>): (r: seq<Course>)
    ensures forall i :: 0 <= i < |r| ==> r[i].isInWishlist
    ensures forall i :: 0 <= i < |courses| && courses[i].isInWishlist ==> courses[i] in r
    ensures multiset(r) <= multiset(courses)
  {
    FilterSpec(courses, IsWishlisted);
    Filter(courses, IsWishlisted)
  }

  /** Both derived lists keep the list order: they distribute over concatenation. */
  lemma DerivedListsKeepOrder(a: seq<Course>, b: seq<Course>)
    ensures EnrolledCourses(a + b) == EnrolledCourses(a) + EnrolledCourses(b)
    ensures WishlistCourses(a + b) == WishlistCourses(a) + WishlistCourses(b)
  {
    FilterAppend(a, b, IsEnrolled);
    FilterAppend(a, b, IsWishlisted);
  }

  /** After enrolling an existing id, the enrolled list holds the updated course. */
  lemma EnrolledAfterEnroll(courses: seq<Course>, i: nat)
    requires i < |courses|
    ensures Enroll(courses, courses[i].id)[i] in EnrolledCourses(Enroll(courses, courses[i].id))
  {
  }

  /** A subject card: id, name, the displayed statistics, and its first courses. */
  datatype Subject = Subject(id: int, name: string, courseCount: int, totalStudents: int, courses: seq<Course>)

  /**
   * `courses.filter(c => c.subject === name).slice(0, 3)`: the subject's
   * courses in list order, cut after the third.
   */
  function SubjectCourses(courses: seq<Course>, name: string): (r: seq<Course>)
    ensures |r| <= 3
    ensures forall i :: 0 <= i < |r| ==> r[i].subject == name
    ensures r <= Filter(courses, OfSubject(name))
    ensures var all := Filter(courses, OfSubject(name));
            |r| == if |all| < 3 then |all| else 3
  {
    FilterSpec(courses, OfSubject(name));
    Take(Filter(courses, OfSubject(name)), 3)
  }

  /**
   * The subject lists its first three courses: a course of the subject with
   * fewer than three courses of that subject before it in the list is listed,
   * and a subject with at most three courses lists all of them.
   */
  lemma {:induction false} SubjectCoursesAll(courses: seq<Course>, name: string, j: nat)
    requires j < |courses| && courses[j].subject == name
    requires |Filter(courses[..j], OfSubject(name))| < 3
    ensures courses[j] in SubjectCourses(courses, name)
    ensures |Filter(courses, OfSubject(name))| <= 3 ==> SubjectCourses(courses, name) == Filter(courses, OfSubject(name))
  {
    var p := OfSubject(name);
    var x := courses[j];
    var before, rest := courses[..j], courses[j + 1..];
    assert courses == before + ([x] + rest);
    FilterAppend(before, [x] + rest, p);
    FilterAppend([x], rest, p);
    assert Filter([x], p) == [x] by { assert [x][..0] == []; }
    var all := Filter(courses, p);
    var k := |Filter(before, p)|;
    assert all == Filter(before, p) + ([x] + Filter(rest, p));
    assert all[k] == x;
    assert SubjectCourses(courses, name)[k] == x;
  }

  /** The eight subjects, each with its first three courses of that subject. */
  function Subjects(courses: seq<Course>): (r: seq<Subject>)
    ensures |r| == 8
    ensures forall i :: 0 <= i < 8 ==> r[i].id == i + 1 && r[i].courses == SubjectCourses(courses, r[i].name)
  {
    [
      Subject(1, "Programming", 6, 58340, SubjectCourses(courses, "Programming")),
      Subject(2, "Design", 2, 20130, SubjectCourses(courses, "Design")),
      Subject(3, "Data Science", 2, 26900, SubjectCourses(courses, "Data Science")),
      Subject(4, "Marketing", 1, 9870, SubjectCourses(courses, "Marketing")),
      Subject(5, "Photography", 1, 6540, SubjectCourses(courses, "Photography")),
      Subject(6, "Music", 1, 4320, SubjectCourses(courses, "Music")),
      Subject(7, "Science", 1, 3450, SubjectCourses(courses, "Science")),
      Subject(8, "Languages", 1, 12890, SubjectCourses(courses, "Languages"))
    ]
  }

  /** The hook's course state. */
  class Catalogue {
    var courses: seq<Course>

    constructor ()
      ensures courses == SeedCourses()
    {
      courses := SeedCourses();
    }

    method EnrollCourse(id: int)
      modifies this
      ensures courses == Enroll(old(courses), id)
    {
      courses := Enroll(courses, id);
    }

    method ToggleWishlist(id: int)
      modifies this
      ensures courses == ToggleWish(old(courses), id)
    {
      courses := ToggleWish(courses, id);
    }
  }
}
