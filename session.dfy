/** Session Manager: the session id (`requestConfig.query.sid`) and the
    cookie (`requestConfig.headers.Cookie`) that every request carries.
    Each successful response may offer a value for either; a field takes
    the offered value only while it is still falsy, so each is set at most
    once during a run. */
module Session {
  import opened Js

  /** One session field after one successful response that offers
      `offered` for it. */
  function Adopt(current: Option<string>, offered: Option<string>): (r: Option<string>)
    ensures Truthy(current) ==> r == current
    ensures !Truthy(current) && Truthy(offered) ==> r == offered
    ensures !Truthy(offered) ==> r == current
  {
    if !Truthy(current) && Truthy(offered) then offered else current
  }

  /** One session field after a run of successful responses, in order. */
  function Settle(current: Option<string>, offers: seq<Option<string>>): Option<string>
    decreases |offers|
  {
    if offers == [] then current else Settle(Adopt(current, offers[0]), offers[1..])
  }

  /** The first truthy value among `offers`, if any: an independent
      description of which response wins. */
  function FirstTruthy(offers: seq<Option<string>>): (r: Option<string>)
    ensures r.Some? ==> Truthy(r) && r in offers
    ensures r.None? <==> forall i | 0 <= i < |offers| :: !Truthy(offers[i])
  {
    if offers == [] then None
    else if Truthy(offers[0]) then offers[0]
    else
      var r := FirstTruthy(offers[1..]);
      assert forall i | 1 <= i < |offers| :: offers[i] == offers[1..][i - 1];
      r
  }

  /** Set-once: after any sequence of responses a field that was already set
      is unchanged; otherwise it holds the value of the first response that
      offered a truthy one, and is unchanged when none did. */
  lemma {:induction false} SettleKeepsFirst(current: Option<string>, offers: seq<Option<string>>)
    ensures Truthy(current) ==> Settle(current, offers) == current
    ensures !Truthy(current) && FirstTruthy(offers).Some? ==> Settle(current, offers) == FirstTruthy(offers)
    ensures !Truthy(current) && FirstTruthy(offers).None? ==> Settle(current, offers) == current
    decreases |offers|
  {
    if offers != [] {
      SettleKeepsFirst(Adopt(current, offers[0]), offers[1..]);
    }
  }

  /** Two responses that both carry a session value: only the first one's
      value persists. */
  lemma FirstOfTwoWins(first: string, second: string)
    requires first != "" && second != ""
    ensures Settle(None, [Some(first), Some(second)]) == Some(first)
  {
    SettleKeepsFirst(None, [Some(first), Some(second)]);
  }
}
