/** Conversation histories, and what a per-message matcher finds in them. */
module Conversation {
  import opened Core

  datatype Turn = Turn(role: string, content: string)

  /** One exchange: what the user said and what the agent answered. */
  datatype Exchange = Exchange(user: string, assistant: string)

  /** The history handed to the pipeline after the given exchanges. */
  function History(exchanges: seq<Exchange>): seq<Turn> {
    if exchanges == [] then []
    else
      var last := exchanges[|exchanges| - 1];
      History(exchanges[..|exchanges| - 1]) + [Turn("user", last.user), Turn("assistant", last.assistant)]
  }

  /** What the matcher finds in the first user turn where it finds something. */
  function FirstInherited(history: seq<Turn>, f: string -> Option<string>): Option<string> {
    if history == [] then None
    else if history[0].role == "user" && f(history[0].content).Some? then f(history[0].content)
    else FirstInherited(history[1..], f)
  }

  lemma {:induction false} InheritedAppend(h: seq<Turn>, more: seq<Turn>, f: string -> Option<string>)
    ensures FirstInherited(h + more, f) ==
            if FirstInherited(h, f).Some? then FirstInherited(h, f) else FirstInherited(more, f)
  {
    if h == [] {
      assert h + more == more;
    } else {
      InheritedAppend(h[1..], more, f);
      assert (h + more)[1..] == h[1..] + more;
    }
  }

  lemma ExchangeInherits(x: Exchange, f: string -> Option<string>)
    ensures FirstInherited([Turn("user", x.user), Turn("assistant", x.assistant)], f) == f(x.user)
  {
    var h := [Turn("user", x.user), Turn("assistant", x.assistant)];
    assert |"user"| != |"assistant"|;
    assert h[1..][1..] == [];
    assert FirstInherited(h[1..], f) == FirstInherited([], f);
  }

  predicate IsEarliest(exchanges: seq<Exchange>, e: nat, f: string -> Option<string>)
    requires e < |exchanges|
  {
    f(exchanges[e].user).Some? && forall i :: 0 <= i < e ==> f(exchanges[i].user).None?
  }

  /** A history hands on the match of the earliest matching user turn, if there is one. */
  lemma {:induction false} InheritedIsEarliest(exchanges: seq<Exchange>, f: string -> Option<string>)
    ensures var found := FirstInherited(History(exchanges), f);
            && (found.Some? <==> exists i :: 0 <= i < |exchanges| && f(exchanges[i].user).Some?)
            && (forall e :: 0 <= e < |exchanges| && IsEarliest(exchanges, e, f) ==> found == f(exchanges[e].user))
  {
    if exchanges != [] {
      var n := |exchanges| - 1;
      var init := exchanges[..n];
      InheritedIsEarliest(init, f);
      ExchangeInherits(exchanges[n], f);
      InheritedAppend(History(init), [Turn("user", exchanges[n].user), Turn("assistant", exchanges[n].assistant)], f);
      if i :| 0 <= i < |exchanges| && f(exchanges[i].user).Some? {
        assert i == n || f(init[i].user).Some?;
      }
      forall e | 0 <= e < |exchanges| && IsEarliest(exchanges, e, f)
        ensures FirstInherited(History(exchanges), f) == f(exchanges[e].user)
      {
        assert e < n ==> IsEarliest(init, e, f);
      }
    }
  }
}
