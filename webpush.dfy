/**
 * The Web Push sender (the `web-push` package's `sendNotification`) seen
 * from the handlers: a notification goes to one stored subscription and
 * comes back delivered or rejected, possibly with an HTTP status.
 */
module WebPush {
  import opened Wrappers

  /** The JSON payload `{ title, body, url }` the service worker displays. */
  datatype Notification = Notification(title: string, body: string, url: string)

  /** A resolved send, or a rejected one carrying `err.statusCode` when the push service answered. */
  datatype Delivery = Delivered | Rejected(statusCode: Option<int>)

  /** 404 and 410 mean the push service no longer knows the subscription. */
  predicate Gone(d: Delivery) {
    d.Rejected? && (d.statusCode == Some(404) || d.statusCode == Some(410))
  }
}
