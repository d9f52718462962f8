/**
 * What the client components show besides their own state: the toast
 * notifications they raise.
 */
module Ui {
  import opened JsRuntime

  /** `toast.success(message)` or `toast.error(message, { description })`. */
  datatype Toast = ToastSuccess(message: string) | ToastError(message: string, description: Option<string>)
}
