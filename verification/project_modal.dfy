/** The project form dialog: four text fields filled from `initialData`,
    emitted on submit and cleared afterwards in "add" mode. */
module ProjectModal {
  import opened Common

  /** The record the form emits, `{title, description, start_date, end_date}`. */
  datatype ProjectFormData = ProjectFormData(
    title: string,
    description: string,
    startDate: string,
    endDate: string)

  /** `value.slice(0, 10)`: what a date input shows of a stored value, the
      `YYYY-MM-DD` part of an ISO timestamp. */
  function DateInputValue(stored: string): (shown: string)
    ensures |shown| == if |stored| < 10 then |stored| else 10
    ensures shown == stored[..|shown|]
  {
    if |stored| < 10 then stored else stored[..10]
  }

  /** A short value is shown whole, and showing is stable under reshowing. */
  lemma DateInputValueStable(stored: string)
    ensures |stored| <= 10 ==> DateInputValue(stored) == stored
    ensures DateInputValue(DateInputValue(stored)) == DateInputValue(stored)
  {
  }

  class ProjectForm {
    const mode: FormMode
    var title: string
    var description: string
    var startDate: string
    var endDate: string

    function Fields(): ProjectFormData
      reads this
    {
      ProjectFormData(title, description, startDate, endDate)
    }

    /** The mounted dialog: every field starts empty, then the effect copies
        `initialData` in when it is given. `mode` defaults to "add". */
    constructor (mode: Option<FormMode>, initialData: Option<ProjectFormData>)
      ensures this.mode == (if mode.Some? then mode.value else Add)
      ensures initialData.None? ==> Fields() == ProjectFormData("", "", "", "")
      ensures initialData.Some? ==> Fields() == initialData.value
    {
      this.mode := if mode.Some? then mode.value else Add;
      title, description, startDate, endDate := "", "", "", "";
      new;
      SyncInitialData(initialData);
    }

    /** The effect on `[initialData]`. */
    method SyncInitialData(initialData: Option<ProjectFormData>)
      modifies this`title, this`description, this`startDate, this`endDate
      ensures initialData.Some? ==> Fields() == initialData.value
      ensures initialData.None? ==> Fields() == old(Fields())
    {
      if initialData.Some? {
        title := initialData.value.title;
        description := initialData.value.description;
        startDate := initialData.value.startDate;
        endDate := initialData.value.endDate;
      }
    }

    /** `handleSubmit`: emit the current fields; in "add" mode clear them,
        in "edit" mode keep them. */
    method Submit() returns (emitted: ProjectFormData)
      modifies this`title, this`description, this`startDate, this`endDate
      ensures emitted == old(Fields())
      ensures mode == Add ==> Fields() == ProjectFormData("", "", "", "")
      ensures mode == Edit ==> Fields() == old(Fields())
    {
      emitted := ProjectFormData(title, description, startDate, endDate);
      if mode == Add {
        title, description, startDate, endDate := "", "", "", "";
      }
    }
  }
}
