/** Whose outcome a waiting dial receives. */
module RelayAnswers {
  import opened Wrappers
  import opened Sequences
  import opened Staging
  import opened Names
  import opened RelayEvents
  import opened RelayProtocol
  import opened RelayStages

  /** The Connect an answer comes from, if it comes from one. */
  function OutcomeOf(answer: Answer): Option<DialId> {
    match answer
    case Connected(link) => Some(link.origin)
    case ConnectError(origin) => Some(origin)
    case _ => None
  }

  predicate Flight(s: Stage) {
    s.AtHandler? || s.OnSubstream?
  }

  /** The Connect of a dial has been made, and has not been reported. */
  predicate Standing(stage: map<Token, Stage>, d: DialId) {
    OfConnect(d) in stage && (InFlight(stage, d) || stage[OfConnect(d)] == Ended(Lost))
  }

  /** An answer that comes from a Connect is the dial's own exactly if the request did not overtake
      that Connect. */
  predicate OwnUnlessOvertaken(stage: map<Token, Stage>, overtaken: set<(DialId, DialId)>, x: Resolution) {
    OutcomeOf(x.answer).Some? ==>
      && OfConnect(x.dial) in stage
      && var o := OutcomeOf(x.answer).value; o == x.dial <==> (o, x.dial) !in overtaken
  }

  ghost predicate AnswersOk(k: Core, overtaken: set<(DialId, DialId)>) {
    && (forall p :: p in k.connecting ==> Standing(k.book.stage, k.connecting[p]))
    && (forall p, o :: p in k.connecting && InFlight(k.book.stage, o) && o in k.dials && k.dials[o].dstPeer == p ==>
          o == k.connecting[p] || (o, k.connecting[p]) in overtaken)
    && (forall o, d :: (o, d) in overtaken ==> o != d && OfConnect(d) in k.book.stage)
    && (forall x :: x in k.book.resolved ==> OwnUnlessOvertaken(k.book.stage, overtaken, x))
  }

  /** Tokens move while nobody new waits. */
  lemma MoveAnswers(k: Core, after: Core, overtaken: set<(DialId, DialId)>, moved: seq<Token>, to: Stage)
    requires AnswersOk(k, overtaken) && KeysOk(k)
    requires after.book.stage == Moved(k.book.stage, moved, to)
    requires forall d :: d in k.dials ==> d in after.dials && after.dials[d] == k.dials[d]
    requires forall p :: p in after.connecting ==> p in k.connecting && after.connecting[p] == k.connecting[p]
    requires forall x :: x in after.book.resolved ==>
               x in k.book.resolved || OwnUnlessOvertaken(k.book.stage, overtaken, x)
    requires forall o :: OfConnect(o) in moved ==>
               && (Flight(to) ==> InFlight(k.book.stage, o))
               && (Flight(to) || to == Ended(Lost) || !Standing(k.book.stage, o)
                   || forall p :: p in after.connecting ==> after.connecting[p] != o)
    ensures AnswersOk(after, overtaken)
  {
    forall o
      ensures OfConnect(o) in k.book.stage <==> OfConnect(o) in after.book.stage
      ensures InFlight(after.book.stage, o) ==> InFlight(k.book.stage, o)
      ensures OfConnect(o) in k.book.stage && OfConnect(o) !in moved ==>
                after.book.stage[OfConnect(o)] == k.book.stage[OfConnect(o)]
    {}
    forall p | p in after.connecting
      ensures Standing(after.book.stage, after.connecting[p])
    {
      assert Standing(k.book.stage, k.connecting[p]);
    }
    forall x | x in after.book.resolved
      ensures OwnUnlessOvertaken(after.book.stage, overtaken, x)
    {
      assert OwnUnlessOvertaken(k.book.stage, overtaken, x);
    }
  }

  /** Connects stay where they are while nobody new waits and nobody is answered. */
  lemma SameAnswers(k: Core, after: Core, overtaken: set<(DialId, DialId)>)
    requires AnswersOk(k, overtaken) && KeysOk(k)
    requires forall o :: OfConnect(o) in k.book.stage <==> OfConnect(o) in after.book.stage
    requires forall o :: OfConnect(o) in k.book.stage ==> after.book.stage[OfConnect(o)] == k.book.stage[OfConnect(o)]
    requires forall d :: d in k.dials ==> d in after.dials && after.dials[d] == k.dials[d]
    requires after.connecting == k.connecting && after.book.resolved == k.book.resolved
    ensures AnswersOk(after, overtaken)
  {
    forall o
      ensures InFlight(after.book.stage, o) <==> InFlight(k.book.stage, o)
    {}
    forall p | p in after.connecting
      ensures Standing(after.book.stage, after.connecting[p])
    {
      assert Standing(k.book.stage, k.connecting[p]);
    }
    forall x | x in after.book.resolved
      ensures OwnUnlessOvertaken(after.book.stage, overtaken, x)
    {
      assert OwnUnlessOvertaken(k.book.stage, overtaken, x);
    }
  }

  lemma UnwaitAnswers(k: Core, overtaken: set<(DialId, DialId)>, p: PeerId, answer: Answer)
    requires AnswersOk(k, overtaken) && KeysOk(k) && p in k.connecting
    requires OutcomeOf(answer).Some? ==>
               var o := OutcomeOf(answer).value; InFlight(k.book.stage, o) && o in k.dials && k.dials[o].dstPeer == p
    ensures AnswersOk(Unwait(k, p, answer), overtaken)
  {
    var d := k.connecting[p];
    var x := Resolution(d, answer);
    assert Standing(k.book.stage, d);
    assert OwnUnlessOvertaken(k.book.stage, overtaken, x);
    CollectOne(SenderOf, x);
    MoveAnswers(k, Unwait(k, p, answer), overtaken, [OfSender(d)], Resolved);
  }

  lemma RefuseAnswers(k: Core, overtaken: set<(DialId, DialId)>)
    requires AnswersOk(k, overtaken) && KeysOk(k) && k.requests != []
    ensures AnswersOk(Refuse(k), overtaken)
  {
    var x := Resolution(k.requests[0].sender, NotListened);
    CollectOne(SenderOf, x);
    MoveAnswers(k, Refuse(k), overtaken, [OfSender(x.dial)], Resolved);
  }

  /** A request is taken: it overtakes the Connects to its peer that are in flight. */
  lemma TakeAnswers(k: Core, after: Core, overtaken: set<(DialId, DialId)>, flying: set<DialId>, p: PeerId, d: DialId)
    requires AnswersOk(k, overtaken) && KeysOk(k)
    requires d in k.dials && k.dials[d].dstPeer == p && OfConnect(d) !in k.book.stage
    requires after.connecting == k.connecting[p := d] && after.dials == k.dials
    requires after.book.resolved == k.book.resolved
    requires forall o :: OfConnect(o) in after.book.stage <==> o == d || OfConnect(o) in k.book.stage
    requires forall o :: OfConnect(o) in k.book.stage ==> after.book.stage[OfConnect(o)] == k.book.stage[OfConnect(o)]
    requires Standing(after.book.stage, d)
    requires forall o :: o in flying <==> o in k.dials && k.dials[o].dstPeer == p && InFlight(k.book.stage, o)
    ensures AnswersOk(after, overtaken + set o | o in flying :: (o, d))
  {
    var overtaken' := overtaken + set o | o in flying :: (o, d);
    forall o | o != d
      ensures InFlight(after.book.stage, o) <==> InFlight(k.book.stage, o)
    {}
    forall q | q in after.connecting
      ensures Standing(after.book.stage, after.connecting[q])
    {
      assert q != p ==> Standing(k.book.stage, k.connecting[q]);
    }
    forall q, o | q in after.connecting && InFlight(after.book.stage, o) && o in after.dials
        && after.dials[o].dstPeer == q
      ensures o == after.connecting[q] || (o, after.connecting[q]) in overtaken'
    {
      if q == p && o != d {
        assert o in flying;
      }
    }
    forall x | x in after.book.resolved
      ensures OwnUnlessOvertaken(after.book.stage, overtaken', x)
    {
      assert OwnUnlessOvertaken(k.book.stage, overtaken, x);
    }
  }
}
