/** The mailboxes registered for each submission. */
module SubscriberRegistry {
  import opened Options
  import opened ReportMailbox

  ghost predicate Unique(boxes: seq<ReportMailbox>) {
    forall i, j :: 0 <= i < j < |boxes| ==> boxes[i] != boxes[j]
  }

  class SubscriberRegistry {
    var subs: map<nat, seq<ReportMailbox>>

    /** A submission is a key only while somebody is subscribed, and nobody is registered twice. */
    ghost predicate Valid() reads this {
      && (forall s :: s in subs ==> subs[s] != [] && Unique(subs[s]))
      && (forall s, t, m :: s in subs && t in subs && m in subs[s] && m in subs[t] ==> s == t)
    }

    /** The subscribers of one submission. */
    function Of(sub: nat): seq<ReportMailbox> reads this {
      if sub in subs then subs[sub] else []
    }

    constructor ()
      ensures Valid() && subs == map[]
    {
      subs := map[];
    }

    method Subscribe(sub: nat) returns (mailbox: ReportMailbox)
      requires Valid()
      modifies this
      ensures Valid() && fresh(mailbox) && mailbox.Valid() && !mailbox.closed && mailbox.Published() == []
      ensures subs == old(subs)[sub := old(Of(sub)) + [mailbox]]
    {
      mailbox := new ReportMailbox();
      assert forall s, i :: s in subs && 0 <= i < |subs[s]| ==> subs[s][i] != mailbox;
      subs := subs[sub := Of(sub) + [mailbox]];
    }

    /** Takes out the mailbox wherever it is, and closes it; a submission nobody follows is forgotten. */
    method Unsubscribe(sub: nat, mailbox: ReportMailbox)
      requires Valid() && mailbox.Valid()
      modifies this, mailbox`closed
      ensures Valid() && mailbox.Valid() && mailbox.closed
      ensures forall t :: t != sub ==> Of(t) == old(Of(t))
      ensures mailbox !in Of(sub)
      ensures forall m :: m != mailbox ==> (m in Of(sub) <==> m in old(Of(sub)))
    {
      var kept := Of(sub);
      var i := 0;
      while i < |kept|
        invariant 0 <= i <= |kept| && kept == Of(sub) && Unique(kept)
        invariant forall k :: 0 <= k < i ==> kept[k] != mailbox
      {
        if kept[i] == mailbox {
          kept := kept[..i] + kept[i + 1..];
          break;
        }
        i := i + 1;
      }
      assert mailbox !in kept && Unique(kept);
      assert forall k :: 0 <= k < |kept| ==> kept[k] in Of(sub);
      Replace(sub, kept);
      mailbox.Close();
    }

    method Replace(sub: nat, kept: seq<ReportMailbox>)
      requires Valid() && Unique(kept) && forall k :: 0 <= k < |kept| ==> kept[k] in Of(sub)
      modifies this
      ensures Valid() && Of(sub) == kept && forall t :: t != sub ==> Of(t) == old(Of(t))
    {
      if |kept| == 0 {
        subs := subs - {sub};
      } else {
        subs := subs[sub := kept];
      }
    }

    /** Every subscriber of the submission gets the report, and nobody else. */
    method SendGradeReport(sub: nat, report: Report, takes: (nat, nat) -> bool)
      requires Valid() && forall m :: m in Of(sub) ==> m.Valid()
      modifies Of(sub)
      ensures Valid() && subs == old(subs)
      ensures forall m :: m in Of(sub) ==>
        && m.Valid() && m.closed == old(m.closed)
        && m.Published() == if m.closed then old(m.Published()) else old(m.Published()) + [report]
    {
      var copied := Of(sub);
      for i := 0 to |copied|
        invariant subs == old(subs)
        invariant forall k :: 0 <= k < |copied| ==> copied[k].Valid() && copied[k].closed == old(copied[k].closed)
        invariant forall k :: 0 <= k < i ==>
          copied[k].Published() == if copied[k].closed then old(copied[k].Published()) else old(copied[k].Published()) + [report]
        invariant forall k :: i <= k < |copied| ==> copied[k].Published() == old(copied[k].Published())
      {
        var rounds := copied[i].Publish(report, (k: nat) => takes(i, k));
      }
    }

    /** Every subscriber of the submission is let go, and what it has not read yet stays readable. */
    method CloseAllSubmissionSubscribers(sub: nat)
      requires Valid() && forall m :: m in Of(sub) ==> m.Valid()
      modifies this, Of(sub)
      ensures Valid() && Of(sub) == [] && forall t :: t != sub ==> Of(t) == old(Of(t))
      ensures forall m :: m in old(Of(sub)) ==>
        m.Valid() && m.closed && m.slot == old(m.slot) && m.Published() == old(m.Published())
    {
      var taken := Of(sub);
      subs := subs - {sub};
      for i := 0 to |taken|
        invariant subs == old(subs) - {sub}
        invariant forall k :: 0 <= k < |taken| ==>
          && taken[k].Valid() && taken[k].slot == old(taken[k].slot) && taken[k].Published() == old(taken[k].Published())
        invariant forall k :: 0 <= k < i ==> taken[k].closed
      {
        taken[i].Close();
      }
    }
  }
}
