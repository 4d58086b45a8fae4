/** The one record type of the app: a task as the remote API describes it. */
module Model {

  /** `ToDoModel`: the task's id, its title (`todo`), whether it is done, and its owner. */
  datatype ToDo = ToDo(id: int, todo: string, completed: bool, userId: int)
}
