/** The notification route: an in-memory set of device tokens, and a `POST`
    that either registers a token or simulates sending a notification to
    one device or to every registered one. */
module NotifyRoute {
  import opened Wrappers
  import opened Text
  import opened Http

  /** The JSON body's `token` and `title` (`None` when absent or `null`);
      the other fields only fill the simulated message. */
  datatype NotifyBody = NotifyBody(token: Option<string>, title: Option<string>)

  datatype NotifyResponse =
    | Registered
    | SentToDevice
    | SentToAll(recipients: nat)
    | Failed(status: int, message: string)
  {
    /** The `message` field of a success response. */
    function Message(): string
      requires !Failed?
    {
      match this
      case Registered => "Device token registered successfully."
      case SentToDevice => "Notification sent to specific device (simulated)."
      case SentToAll(n) => "Notification sent to " + NatToString(n) + " devices (simulated)."
    }
  }

  /** Registration is a body with a token and without a title. */
  predicate IsRegistration(body: NotifyBody) {
    Truthy(body.token) && !Truthy(body.title)
  }

  /** The module-level `deviceTokens` set. */
  class DeviceRegistry {
    var tokens: set<string>

    constructor ()
      ensures tokens == {}
    {
      tokens := {};
    }

    /** `POST /api/notify` (`body` is `None` when the JSON does not parse).
        Only registration changes the set; sending to one device needs a
        token; sending to all reports the registry size, and fails with 400
        when nothing is registered. */
    method Post(body: Option<NotifyBody>) returns (resp: NotifyResponse)
      modifies this
      ensures body.None? ==> resp == Failed(500, "Internal server error") && tokens == old(tokens)
      ensures body.Some? && IsRegistration(body.value) ==>
        resp == Registered && tokens == old(tokens) + {body.value.token.value}
        && |tokens| == |old(tokens)| + (if body.value.token.value in old(tokens) then 0 else 1)
      ensures body.Some? && !IsRegistration(body.value) ==> tokens == old(tokens)
      ensures body.Some? && !IsRegistration(body.value) && Truthy(body.value.token) ==> resp == SentToDevice
      ensures body.Some? && !Truthy(body.value.token) && |old(tokens)| > 0 ==> resp == SentToAll(|old(tokens)|)
      ensures body.Some? && !Truthy(body.value.token) && |old(tokens)| == 0 ==>
        resp == Failed(400, "No registered devices found.")
    {
      if body.None? {
        return Failed(500, "Internal server error");
      }
      var b := body.value;
      if IsRegistration(b) {
        var t := b.token.value;
        if t in tokens {
          assert tokens + {t} == tokens;
        } else {
          assert |tokens + {t}| == |tokens| + 1;
        }
        tokens := tokens + {t};
        return Registered;
      }
      if Truthy(b.token) {
        resp := SentToDevice;
      } else if |tokens| > 0 {
        resp := SentToAll(|tokens|);
      } else {
        resp := Failed(400, "No registered devices found.");
      }
    }
  }

  /** The broadcast message names the number of recipients. */
  lemma BroadcastMessage(n: nat)
    ensures SentToAll(n).Message() == "Notification sent to " + NatToString(n) + " devices (simulated)."
    ensures DigitsValue(NatToString(n)) == n
  {
    NatToStringRoundTrip(n);
  }
}
