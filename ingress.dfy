/** What the two webhook endpoints have in common: the notification kinds the
    consumer knows, the HTTP replies, and the decision "reply, and maybe publish". */
module Ingress {
  import opened Wrappers
  import opened Json

  const NewDelivery: string := "new_delivery"
  const StatusUpdate: string := "status_update"
  const Assignment: string := "assignment"
  /** Only the `{delivery, action}` endpoint produces it, for unrecognised actions. */
  const Info: string := "info"

  /** The answer to the webhook sender. `Unhandled` is a handler whose promise
      rejects: the answer is then the framework's own error response. */
  datatype Reply =
    | TextReply(status: nat, text: string)
    | JsonReply(status: nat, body: Json)
    | Unhandled

  /** The reply to the webhook sender, and the notification handed to
      `broadcastToClients`, if any. */
  datatype Outcome = Outcome(reply: Reply, publish: Option<Json>)
}
