/** The task form dialog: three text fields filled from `initialData`,
    emitted on submit with a creator id, and cleared afterwards. */
module TaskModal {
  import opened Common
  import TaskStatusFilter

  /** The statuses the form's select offers, in order. */
  const StatusOptions: seq<string> := ["Todo", "In Progress", "Done"]

  /** The form offers exactly the labels the status drop-down filters by. */
  lemma StatusOptionsMatchFilter()
    ensures StatusOptions == TaskStatusFilter.StatusLabels
    ensures |StatusOptions| == 3
  {
  }

  /** The `initialData` prop; `createdBy` may be left out by the caller. */
  datatype TaskFormData = TaskFormData(
    projectId: string,
    title: string,
    status: string,
    createdBy: Option<int>)

  /** What `handleSubmit` passes to `onSubmit`. */
  datatype TaskSubmission = TaskSubmission(
    projectId: string,
    title: string,
    status: string,
    createdBy: int)

  /** `initialData?.created_by ?? 0`. */
  function SubmittedCreator(initialData: Option<TaskFormData>): (id: int)
    ensures initialData.None? ==> id == 0
    ensures initialData.Some? && initialData.value.createdBy.None? ==> id == 0
    ensures initialData.Some? && initialData.value.createdBy.Some? ==> id == initialData.value.createdBy.value
  {
    if initialData.Some? && initialData.value.createdBy.Some? then initialData.value.createdBy.value else 0
  }

  class TaskForm {
    const initialData: Option<TaskFormData>
    var projectId: string
    var title: string
    var status: string

    /** The mounted dialog: every field starts empty, then the effect copies
        `initialData` in when it is given. */
    constructor (initialData: Option<TaskFormData>)
      ensures this.initialData == initialData
      ensures initialData.None? ==> projectId == "" && title == "" && status == ""
      ensures initialData.Some? ==> projectId == initialData.value.projectId
      ensures initialData.Some? ==> title == initialData.value.title && status == initialData.value.status
    {
      this.initialData := initialData;
      projectId, title, status := "", "", "";
      new;
      SyncInitialData();
    }

    /** The effect on `[initialData]`. */
    method SyncInitialData()
      modifies this`projectId, this`title, this`status
      ensures initialData.Some? ==> projectId == initialData.value.projectId
      ensures initialData.Some? ==> title == initialData.value.title && status == initialData.value.status
      ensures initialData.None? ==> projectId == old(projectId) && title == old(title) && status == old(status)
    {
      if initialData.Some? {
        projectId := initialData.value.projectId;
        title := initialData.value.title;
        status := initialData.value.status;
      }
    }

    /** The select's `onValueChange`. */
    method SetStatus(value: string)
      modifies this`status
      ensures status == value
    {
      status := value;
    }

    /** `handleSubmit`: emit the current fields with the creator id, then
        clear every field whatever the mode. */
    method Submit() returns (emitted: TaskSubmission)
      modifies this`projectId, this`title, this`status
      ensures emitted == TaskSubmission(old(projectId), old(title), old(status), SubmittedCreator(initialData))
      ensures projectId == "" && title == "" && status == ""
    {
      emitted := TaskSubmission(projectId, title, status, SubmittedCreator(initialData));
      projectId, title, status := "", "", "";
    }
  }
}
