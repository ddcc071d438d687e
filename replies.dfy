/** The route's JSON replies as the browser-side hooks receive them. */
module Replies {
  import opened Common

  /** The reply to the initiating request: any truthy JSON object. An error
      reply such as `{ error }` is an object with every field undefined. */
  datatype AuthData = AuthData(orderRef: JsStr, qrStartToken: JsStr, autoStartToken: JsStr)

  /** The reply to a collect request. `details` stands for the remaining
      fields (completion data, the one-time secret), which the hooks only
      store. */
  datatype CollectData = CollectData(status: JsStr, hintCode: JsStr, details: string)

  predicate IsComplete(d: Option<CollectData>) {
    d.Some? && d.value.status == Some("complete")
  }

  predicate IsFailed(d: Option<CollectData>) {
    d.Some? && d.value.status == Some("failed")
  }

  /** The reply to a refresh request: the payload string, or a JSON object
      such as `{ error: "Failed to refresh QR" }`. */
  datatype QrBody = QrText(text: string) | QrObject

  /** JavaScript truthiness: only the empty string is falsy. */
  predicate QrTruthy(b: QrBody) {
    b.QrText? ==> b.text != ""
  }
}
