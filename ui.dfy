/** What an event handler of a page does that can be seen from outside it, in order. */
module Ui {
  import opened Common

  datatype Toast = Success(message: string) | Error(message: string)

  /**
   * One effect of a handler. `W` is the type of request the page sends to the hosted
   * database or authentication service; `Call` is a call of a function the page does not
   * own (a prop such as `onSave`, or a reload such as `fetchActions`).
   */
  datatype Effect<+W> =
    | SetBusy(busy: bool)
    | ShowToast(toast: Toast)
    | NavigateTo(path: string)
    | Send(request: W)
    | Call(name: string)

  /** The answer of a `select`: the rows (`data`, possibly null), or an error. */
  datatype Loaded<T> = Loaded(data: Option<seq<T>>) | LoadFailed

  /** `data || []`: the rows of a successful `select`, with null read as no rows. */
  function RowsOr<T>(data: Option<seq<T>>): (rows: seq<T>)
    ensures data.None? ==> rows == []
    ensures data.Some? ==> rows == data.value
  {
    if data.Some? then data.value else []
  }

  /** The effects contain a navigation to `path`. */
  predicate Navigates<W>(effects: seq<Effect<W>>, path: string) {
    exists i :: 0 <= i < |effects| && effects[i] == NavigateTo(path)
  }

  /** The effects contain some success toast. */
  predicate ReportsSuccess<W>(effects: seq<Effect<W>>) {
    exists i :: 0 <= i < |effects| && effects[i].ShowToast? && effects[i].toast.Success?
  }

  /** The effects contain some request to the backend. */
  predicate SendsRequest<W>(effects: seq<Effect<W>>) {
    exists i :: 0 <= i < |effects| && effects[i].Send?
  }
}
