/** The earlier grades view (eagle-task/src/components/grades.jsx): only the
    stored course list and its dropdowns; its chat box has no handler. */
module GradesPage {
  import opened Courses
  import Storage

  class GradesPageView {
    var courses: seq<Course>

    /** First render plus the mount effect; `parse` stands for `JSON.parse`. */
    constructor(store: Storage.LocalStorage, parse: string -> seq<Course>)
      ensures courses == LoadOnMount(store.GetItem(Storage.GradesKey), parse)
      ensures !Storage.Truthy(store.GetItem(Storage.GradesKey)) ==> courses == []
    {
      courses := LoadOnMount(store.GetItem(Storage.GradesKey), parse);
    }

    /** `toggleDropdown(index)` */
    method ToggleDropdown(index: int)
      modifies this
      ensures courses == Courses.ToggleDropdown(old(courses), index)
    {
      courses := Courses.ToggleDropdown(courses, index);
    }
  }
}
