/** `useModal`: one modal record, replaced whole by each `show*` call and
    closed by `closeModal`, which keeps everything but `isOpen`. */
module UseModal {

  datatype ModalType = Success | Error | Info

  datatype ModalState = ModalState(isOpen: bool, title: string, message: string, kind: ModalType)

  /** The state the hook starts in. */
  const Initial := ModalState(false, "", "", Info)

  /** The state any `show*` call leaves, whatever came before. */
  function Shown(kind: ModalType, title: string, message: string): ModalState
  {
    ModalState(true, title, message, kind)
  }

  /** `closeModal`'s update of the previous state. */
  function Closed(s: ModalState): (r: ModalState)
    ensures !r.isOpen && r.title == s.title && r.message == s.message && r.kind == s.kind
  {
    s.(isOpen := false)
  }

  lemma CloseIdempotent(s: ModalState)
    ensures Closed(Closed(s)) == Closed(s)
  {
  }

  /** The hook's state as a class: its four fields are the record's. */
  class Modal {
    var isOpen: bool
    var title: string
    var message: string
    var kind: ModalType

    function State(): ModalState
      reads this
    {
      ModalState(isOpen, title, message, kind)
    }

    constructor ()
      ensures State() == Initial
    {
      isOpen, title, message, kind := false, "", "", Info;
    }

    method ShowSuccess(t: string, m: string)
      modifies this
      ensures State() == Shown(Success, t, m)
    {
      isOpen, title, message, kind := true, t, m, Success;
    }

    method ShowError(t: string, m: string)
      modifies this
      ensures State() == Shown(Error, t, m)
    {
      isOpen, title, message, kind := true, t, m, Error;
    }

    method ShowInfo(t: string, m: string)
      modifies this
      ensures State() == Shown(Info, t, m)
    {
      isOpen, title, message, kind := true, t, m, Info;
    }

    method CloseModal()
      modifies this
      ensures State() == Closed(old(State()))
    {
      isOpen := false;
    }
  }

  /** A sequence of calls on the hook. */
  datatype ModalEvent = Show(kind: ModalType, title: string, message: string) | Close

  function Apply(s: ModalState, e: ModalEvent): ModalState
  {
    match e
    case Show(k, t, m) => Shown(k, t, m)
    case Close => Closed(s)
  }

  function Run(s: ModalState, es: seq<ModalEvent>): ModalState
    decreases |es|
  {
    if es == [] then s else Run(Apply(s, es[0]), es[1..])
  }

  /** Closing any number of times after a state only clears `isOpen`, and
      only if there was at least one close. */
  lemma {:induction false} OnlyClosesAfter(s: ModalState, es: seq<ModalEvent>)
    requires forall i :: 0 <= i < |es| ==> es[i] == Close
    ensures Run(s, es) == if es == [] then s else Closed(s)
    decreases |es|
  {
    if es != [] {
      OnlyClosesAfter(Closed(s), es[1..]);
    }
  }

  /** After the last `show*` call, the modal holds exactly what that call gave
      it, open unless a close came later; what came before it leaves no
      trace. */
  lemma {:induction false} LastShowWins(s: ModalState, es: seq<ModalEvent>, i: nat)
    requires i < |es| && es[i].Show?
    requires forall j :: i < j < |es| ==> es[j] == Close
    ensures Run(s, es) == ModalState(i == |es| - 1, es[i].title, es[i].message, es[i].kind)
    decreases i
  {
    if i == 0 {
      OnlyClosesAfter(Apply(s, es[0]), es[1..]);
    } else {
      LastShowWins(Apply(s, es[0]), es[1..], i - 1);
    }
  }

  /** Two histories that end with the same calls from some `show*` on end in
      the same state. */
  lemma ShowForgetsHistory(s1: ModalState, s2: ModalState, es: seq<ModalEvent>, i: nat)
    requires i < |es| && es[i].Show?
    requires forall j :: i < j < |es| ==> es[j] == Close
    ensures Run(s1, es) == Run(s2, es)
  {
    LastShowWins(s1, es, i);
    LastShowWins(s2, es, i);
  }
}
