/** Course records as the grades views hold them, and the dropdown toggle
    `courses.map((course, i) => i === index ? { ...course, isOpen: !course.isOpen } : course)`. */
module Courses {
  import opened Outcomes
  import Storage

  /** A course's `isOpen` field: absent (`undefined`, falsy) until first toggled. */
  datatype OpenFlag = Unset | Flag(value: bool)

  /** Scores are kept as the text the backend sent. */
  datatype Assignment = Assignment(name: string, submissionScore: string, pointsPossible: string)

  datatype Course = Course(name: string, assignments: seq<Assignment>, isOpen: OpenFlag)

  /** The truthiness of `course.isOpen`, which decides whether the dropdown is shown. */
  predicate IsOpen(c: Course) {
    c.isOpen == Flag(true)
  }

  /** `{ ...course, isOpen: !course.isOpen }` */
  function Toggle(c: Course): (r: Course)
    ensures IsOpen(r) == !IsOpen(c) && r.isOpen.Flag?
    ensures r.name == c.name && r.assignments == c.assignments
  {
    c.(isOpen := Flag(!IsOpen(c)))
  }

  /** Only the course at `index` changes, and only its `isOpen`; an index
      outside the list changes nothing. */
  function ToggleDropdown(courses: seq<Course>, index: int): (r: seq<Course>)
    ensures |r| == |courses|
    ensures forall i | 0 <= i < |courses| && i != index :: r[i] == courses[i]
    ensures 0 <= index < |courses| ==>
      IsOpen(r[index]) == !IsOpen(courses[index])
      && r[index].name == courses[index].name && r[index].assignments == courses[index].assignments
    ensures !(0 <= index < |courses|) ==> r == courses
  {
    seq(|courses|, i requires 0 <= i < |courses| => if i == index then Toggle(courses[i]) else courses[i])
  }

  /** Toggling the same index twice restores every course's open/closed state
      and content; the list is restored exactly unless that course had never
      been toggled (its `isOpen` was absent and is now `false`). */
  lemma ToggleTwice(courses: seq<Course>, index: int)
    ensures var r := ToggleDropdown(ToggleDropdown(courses, index), index);
            && |r| == |courses|
            && (forall i | 0 <= i < |r| ::
                  IsOpen(r[i]) == IsOpen(courses[i]) && r[i].name == courses[i].name
                  && r[i].assignments == courses[i].assignments)
            && (r == courses <==> !(0 <= index < |courses|) || courses[index].isOpen.Flag?)
  {
    var r := ToggleDropdown(ToggleDropdown(courses, index), index);
    if 0 <= index < |courses| {
      if courses[index].isOpen.Unset? {
        assert r[index] != courses[index];
      } else {
        assert r[index] == courses[index];
        assert forall i | 0 <= i < |r| :: r[i] == courses[i];
      }
    }
  }

  /** The mount effect: the stored list is loaded only when the stored text is
      present and non-empty (`if (storedData)`); otherwise the list stays empty. */
  function LoadOnMount(stored: Option<string>, parse: string -> seq<Course>): (r: seq<Course>)
    ensures !Storage.Truthy(stored) ==> r == []
    ensures stored.Some? && stored.value != "" ==> r == parse(stored.value)
  {
    if Storage.Truthy(stored) then parse(stored.value) else []
  }
}
