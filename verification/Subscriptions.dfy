/** Which subscriptions an event is addressed to, and the SQL pre-filter in front of it. */
module Subscriptions {
  import opened Common
  import opened EventLog
  import F = Filter

  predicate StreamOk(sub: Subscription, ev: Event) {
    sub.stream == "" || sub.stream == "all" || sub.stream == ev.stream
  }

  ghost predicate ProviderOk(pm: F.PathMatcher, sub: Subscription, ev: Event) {
    sub.providerFilters == [] ||
    exists p :: p in sub.providerFilters && (F.AnyValue(p) || F.MatchSegment(pm, p, ev.provider))
  }

  ghost predicate TypeOk(pm: F.PathMatcher, sub: Subscription, ev: Event) {
    sub.typeFilters == [] ||
    exists p :: p in sub.typeFilters && (F.AnyValue(p) || F.TypeMatches(pm, p, ev.kind))
  }

  predicate SubjectOk(pm: F.PathMatcher, sub: Subscription, ev: Event) {
    sub.subjectPattern == "" || F.MatchPath(pm, sub.subjectPattern, ev.subject)
  }

  /** Every filter the subscription sets accepts the event. */
  ghost predicate Addresses(pm: F.PathMatcher, sub: Subscription, ev: Event) {
    StreamOk(sub, ev) && ProviderOk(pm, sub, ev) && TypeOk(pm, sub, ev) && SubjectOk(pm, sub, ev)
  }

  /** filter.Matches. */
  method Matches(pm: F.PathMatcher, sub: Subscription, ev: Event) returns (r: bool)
    ensures r <==> Addresses(pm, sub, ev)
    ensures r <==>
              && (sub.stream == "" || sub.stream == "all" || sub.stream == ev.stream)
              && (sub.providerFilters == [] ||
                    exists p :: p in sub.providerFilters &&
                                (p in {"", "*", "**"} || F.MatchSegment(pm, p, ev.provider)))
              && (sub.typeFilters == [] ||
                    exists p :: p in sub.typeFilters && (p in {"", "*", "**"} || F.TypeMatches(pm, p, ev.kind)))
              && (sub.subjectPattern == "" || F.MatchPath(pm, sub.subjectPattern, ev.subject))
  {
    if sub.stream != "" && sub.stream != "all" && sub.stream != ev.stream {
      return false;
    }
    if |sub.providerFilters| > 0 {
      var p := F.MatchAnyProvider(pm, sub.providerFilters, ev.provider);
      if !p {
        return false;
      }
    }
    if |sub.typeFilters| > 0 {
      var t := F.MatchAnyType(pm, sub.typeFilters, ev.kind);
      if !t {
        return false;
      }
    }
    if sub.subjectPattern != "" && !F.MatchPath(pm, sub.subjectPattern, ev.subject) {
      return false;
    }
    return true;
  }

  /** WHERE status <> disabled AND (stream = ? OR stream = 'all') [AND delivery = ?]. */
  predicate PreFilter(sub: Subscription, ev: Event, mode: Mode) {
    && !sub.status.Disabled?
    && (sub.stream == ev.stream || sub.stream == "all")
    && sub.mode == mode
  }

  /** The pre-filter and the filter disagree about a stream exactly for subscriptions with
      the empty stream, which CreateSubscription never stores. */
  lemma PreFilterDropsNone(sub: Subscription, ev: Event)
    ensures ((sub.stream == ev.stream || sub.stream == "all") <==> StreamOk(sub, ev))
            <==> (sub.stream != "" || ev.stream == "")
  {
  }

  /** What fan-out owes: enabled subscriptions of the mode, paused ones included. */
  ghost predicate Owed(pm: F.PathMatcher, sub: Subscription, ev: Event, mode: Mode) {
    !sub.status.Disabled? && sub.mode == mode && Addresses(pm, sub, ev)
  }

  /** MatchingSubscriptions, over the rows of the subscriptions table in any order. */
  method MatchingSubscriptions(pm: F.PathMatcher, subs: map<SubId, Subscription>, ev: Event, mode: Mode)
    returns (out: seq<Subscription>)
    requires forall id :: id in subs ==> subs[id].id == id && subs[id].stream != ""
    ensures forall sub :: sub in out <==>
              && sub.id in subs && subs[sub.id] == sub
              && !sub.status.Disabled? && sub.mode == mode && Addresses(pm, sub, ev)
    ensures forall i, j :: 0 <= i < j < |out| ==> out[i].id != out[j].id
  {
    out := [];
    var rest := subs.Keys;
    while rest != {}
      invariant rest <= subs.Keys
      invariant forall sub :: sub in out <==>
                  sub.id in subs && sub.id !in rest && subs[sub.id] == sub && Owed(pm, sub, ev, mode)
      invariant forall i, j :: 0 <= i < j < |out| ==> out[i].id != out[j].id
      decreases |rest|
    {
      var id :| id in rest;
      var sub := subs[id];
      rest := rest - {id};
      if PreFilter(sub, ev, mode) {
        var m := Matches(pm, sub, ev);
        if m {
          forall i | 0 <= i < |out| ensures out[i].id != id {
            assert out[i] in out;
          }
          out := out + [sub];
        }
      }
    }
  }
}
