/** Repeated webhooks: what any sequence of deliveries comes to, among everything else that goes on. */
module WebhookReplay {
  import opened Payments
  import opened ChargeSafety

  predicate IsRepeat(seen: set<string>, step: Step) {
    step.Deliver? && Key(step.event) in seen
  }

  function SeenAfter(seen: set<string>, step: Step): set<string> {
    if step.Deliver? then seen + {Key(step.event)} else seen
  }

  /** The run with only the first delivery of each `type:id`. */
  function WithoutRepeats(steps: seq<Step>, seen: set<string>): seq<Step>
    decreases |steps|
  {
    if |steps| == 0 then []
    else if IsRepeat(seen, steps[0]) then WithoutRepeats(steps[1..], seen)
    else [steps[0]] + WithoutRepeats(steps[1..], SeenAfter(seen, steps[0]))
  }

  /** Every step notes the key it delivers and no other, whatever its handler does. */
  lemma StepNotes(t: Tables, step: Step)
    ensures Next(t, step).webhooks == SeenAfter(t.webhooks, step)
    ensures IsRepeat(t.webhooks, step) ==> Next(t, step) == t
  {
    if step.Deliver? && Key(step.event) !in t.webhooks && !step.throws {
      assert Handled(t.(webhooks := SeenAfter(t.webhooks, step)), step.event).webhooks == SeenAfter(t.webhooks, step);
    }
  }

  /**
   Repeats, in whatever order and between whatever other calls, change nothing: orders, checkouts, payments
   and the webhook table end as if each event had been delivered once, the first time.
   */
  lemma {:induction false} RepeatsChangeNothing(t: Tables, steps: seq<Step>)
    ensures Run(t, steps) == Run(t, WithoutRepeats(steps, t.webhooks))
    decreases |steps|
  {
    if |steps| > 0 {
      StepNotes(t, steps[0]);
      RepeatsChangeNothing(Next(t, steps[0]), steps[1..]);
      if !IsRepeat(t.webhooks, steps[0]) {
        var rest := WithoutRepeats(steps[1..], SeenAfter(t.webhooks, steps[0]));
        assert ([steps[0]] + rest)[1..] == rest;
      }
    }
  }

  /** The deliveries that remain are of different events, and none of them was noted before. */
  lemma {:induction false} FirstDeliveriesDiffer(steps: seq<Step>, seen: set<string>, i: nat, j: nat)
    requires i <= j < |WithoutRepeats(steps, seen)|
    requires WithoutRepeats(steps, seen)[i].Deliver? && WithoutRepeats(steps, seen)[j].Deliver?
    ensures Key(WithoutRepeats(steps, seen)[j].event) !in seen
    ensures i < j ==> Key(WithoutRepeats(steps, seen)[i].event) != Key(WithoutRepeats(steps, seen)[j].event)
    decreases |steps|
  {
    if IsRepeat(seen, steps[0]) {
      FirstDeliveriesDiffer(steps[1..], seen, i, j);
    } else {
      var rest := SeenAfter(seen, steps[0]);
      if i > 0 {
        FirstDeliveriesDiffer(steps[1..], rest, i - 1, j - 1);
      } else if j > 0 {
        FirstDeliveriesDiffer(steps[1..], rest, j - 1, j - 1);
      }
    }
  }

  /** Every event of the run is still delivered. */
  lemma {:induction false} NoEventIsLost(steps: seq<Step>, seen: set<string>, i: nat) returns (j: nat)
    requires i < |steps| && steps[i].Deliver? && Key(steps[i].event) !in seen
    ensures j < |WithoutRepeats(steps, seen)|
    ensures var first := WithoutRepeats(steps, seen)[j]; first.Deliver? && Key(first.event) == Key(steps[i].event)
    decreases |steps|
  {
    if i == 0 || (steps[0].Deliver? && Key(steps[0].event) == Key(steps[i].event)) {
      j := 0;
    } else if IsRepeat(seen, steps[0]) {
      j := NoEventIsLost(steps[1..], seen, i - 1);
    } else {
      j := NoEventIsLost(steps[1..], SeenAfter(seen, steps[0]), i - 1);
      j := j + 1;
    }
  }

  /** Two runs whose first deliveries agree end in the same tables. */
  lemma SameFirstsSameEnd(t: Tables, a: seq<Step>, b: seq<Step>)
    requires WithoutRepeats(a, t.webhooks) == WithoutRepeats(b, t.webhooks)
    ensures Run(t, a) == Run(t, b)
  {
    RepeatsChangeNothing(t, a);
    RepeatsChangeNothing(t, b);
  }

  /** Deliveries of `key` taken out. */
  function Without(steps: seq<Step>, key: string): seq<Step> {
    if |steps| == 0 then []
    else if steps[0].Deliver? && Key(steps[0].event) == key then Without(steps[1..], key)
    else [steps[0]] + Without(steps[1..], key)
  }

  lemma {:induction false} NotedIsDropped(t: Tables, steps: seq<Step>, key: string)
    requires key in t.webhooks
    ensures Run(t, steps) == Run(t, Without(steps, key))
    decreases |steps|
  {
    if |steps| > 0 {
      StepNotes(t, steps[0]);
      NotedIsDropped(Next(t, steps[0]), steps[1..], key);
      if !(steps[0].Deliver? && Key(steps[0].event) == key) {
        assert ([steps[0]] + Without(steps[1..], key))[1..] == Without(steps[1..], key);
      }
    }
  }

  /**
   The first delivery decides: if its handler went through, the event has its effect then and never again; if
   it threw, the event has none, then or later. What follows runs as if the event were not in it.
   */
  lemma FirstDeliveryDecides(t: Tables, e: Event, throws: bool, more: seq<Step>)
    requires Key(e) !in t.webhooks
    ensures var noted := t.(webhooks := t.webhooks + {Key(e)});
            Run(t, [Deliver(e, throws)] + more) == Run(if throws then noted else Handled(noted, e), Without(more, Key(e)))
  {
    assert ([Deliver(e, throws)] + more)[1..] == more;
    StepNotes(t, Deliver(e, throws));
    NotedIsDropped(Delivered(t, e, throws), more, Key(e));
  }

  /**
   The key outlives a handler that throws, so the provider's retries are taken for repeats: the event never
   takes effect, however often it comes again.
   */
  lemma ThrownIsLost(t: Tables, e: Event, more: seq<Step>)
    requires Key(e) !in t.webhooks
    ensures Run(t, [Deliver(e, true)] + more) == Run(t.(webhooks := t.webhooks + {Key(e)}), Without(more, Key(e)))
  {
    FirstDeliveryDecides(t, e, true, more);
  }
}
