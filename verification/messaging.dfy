/**
 * The FCM message envelope (`buildNotificationPayload`), the guarded single
 * send (`sendNotificationToDevice`) and the fan-out of several sends whose
 * gateway errors are caught one by one.
 */
module Messaging {
  import opened Wrappers
  import opened Documents

  /** What a handler decides to send: one push to one device token. */
  datatype Intent = Intent(token: string, title: string, body: string, data: map<string, string>)

  datatype Notification = Notification(title: string, body: string)
  datatype AndroidNotification = AndroidNotification(channelId: string, sound: string)
  datatype AndroidConfig = AndroidConfig(priority: string, notification: AndroidNotification)
  datatype Aps = Aps(sound: string, contentAvailable: bool)
  datatype ApnsConfig = ApnsConfig(aps: Aps)   // `apns.payload.aps`

  datatype Payload = Payload(
    token: string,
    notification: Notification,
    data: map<string, string>,
    android: AndroidConfig,
    apns: ApnsConfig)

  function BuildNotificationPayload(token: string, title: string, body: string,
                                    data: map<string, string> := map[]): (p: Payload)
    ensures IntentOf(p) == Intent(token, title, body, data)
    ensures p.android.priority == "high"
    ensures p.android.notification == AndroidNotification("default_channel", "default")
    ensures p.apns.aps.sound == "default" && p.apns.aps.contentAvailable
  {
    Payload(token, Notification(title, body), data,
            AndroidConfig("high", AndroidNotification("default_channel", "default")),
            ApnsConfig(Aps("default", true)))
  }

  /** The parts of a payload that come from the caller. */
  function IntentOf(p: Payload): Intent {
    Intent(p.token, p.notification.title, p.notification.body, p.data)
  }

  /** The platform blocks of two payloads agree, whatever went into them. */
  lemma PlatformHintsUniform(a: Intent, b: Intent)
    ensures BuildNotificationPayload(a.token, a.title, a.body, a.data).android
         == BuildNotificationPayload(b.token, b.title, b.body, b.data).android
    ensures BuildNotificationPayload(a.token, a.title, a.body, a.data).apns
         == BuildNotificationPayload(b.token, b.title, b.body, b.data).apns
  {
  }

  /** Building loses nothing: distinct intents give distinct payloads. */
  lemma BuildInjective(a: Intent, b: Intent)
    requires BuildNotificationPayload(a.token, a.title, a.body, a.data)
          == BuildNotificationPayload(b.token, b.title, b.body, b.data)
    ensures a == b
  {
    assert IntentOf(BuildNotificationPayload(a.token, a.title, a.body, a.data)) == a;
  }

  /**
   * What one call of `sendNotificationToDevice` does: nothing for a falsy
   * token; otherwise one gateway call, whose error is logged and swallowed.
   */
  datatype Delivery = Skipped | Sent(payload: Payload) | SendFailed(payload: Payload)

  function SendNotificationToDevice(token: Option<string>, title: string, body: string,
                                    data: map<string, string>, gatewayOk: bool): (d: Delivery)
    ensures d.Skipped? <==> !Truthy(token)
    ensures d.SendFailed? <==> Truthy(token) && !gatewayOk
    ensures !d.Skipped? ==> IntentOf(d.payload) == Intent(token.value, title, body, data)
  {
    if !Truthy(token) then Skipped
    else
      var payload := BuildNotificationPayload(token.value, title, body, data);
      if gatewayOk then Sent(payload) else SendFailed(payload)
  }

  /**
   * Sending every intent of a fan-out, each in its own guarded call; `failed`
   * holds the positions whose gateway call throws.
   */
  function DispatchAll(intents: seq<Intent>, failed: set<nat>): (ds: seq<Delivery>)
    ensures |ds| == |intents|
    ensures forall k :: 0 <= k < |ds| ==>
      (ds[k].Skipped? <==> intents[k].token == "")
    ensures forall k :: 0 <= k < |ds| && intents[k].token != "" ==>
      IntentOf(ds[k].payload) == intents[k] && (ds[k].SendFailed? <==> k in failed)
  {
    seq(|intents|, k requires 0 <= k < |intents| =>
      SendNotificationToDevice(Some(intents[k].token), intents[k].title, intents[k].body,
                               intents[k].data, k !in failed))
  }

  /** One failing send leaves every other send of the fan-out as it was. */
  lemma DispatchFailureIsolated(intents: seq<Intent>, failed: set<nat>, j: nat, k: nat)
    requires k < |intents| && k != j
    ensures DispatchAll(intents, failed + {j})[k] == DispatchAll(intents, failed)[k]
  {
  }
}
