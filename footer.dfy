/**
 * The newsletter box of the footer (src/components/landing/Footer.tsx): the
 * `email` field, `handleSubscribe`, and the `isSubscribed` flag that a
 * 3000 ms timer clears again. Timer firings are events; no clock is kept.
 */
module FooterNewsletter {

  /** What the subscribe button shows. */
  datatype ButtonContent = Label(text: string) | ArrowIcon

  class Footer {
    var email: string
    var isSubscribed: bool
    /** Reset timers scheduled and not yet fired. */
    var pendingResets: nat
    /** What `console.log` received: the only place a subscribed address goes. */
    var logged: seq<string>

    constructor ()
      ensures email == "" && !isSubscribed && pendingResets == 0 && logged == []
    {
      email, isSubscribed := "", false;
      pendingResets, logged := 0, [];
    }

    /** Typing into the email input. */
    method SetEmail(s: string)
      modifies this
      ensures email == s
      ensures isSubscribed == old(isSubscribed) && pendingResets == old(pendingResets) && logged == old(logged)
    {
      email := s;
    }

    /**
     * `handleSubscribe`: an empty field changes nothing; otherwise the address
     * is logged, the flag is set, a reset timer is scheduled and the field is
     * cleared.
     */
    method HandleSubscribe()
      modifies this
      ensures old(email) == "" ==>
                email == "" && isSubscribed == old(isSubscribed)
                && pendingResets == old(pendingResets) && logged == old(logged)
      ensures old(email) != "" ==>
                email == "" && isSubscribed
                && pendingResets == old(pendingResets) + 1 && logged == old(logged) + [old(email)]
    {
      if email != "" {
        logged := logged + [email];
        isSubscribed := true;
        pendingResets := pendingResets + 1;
        email := "";
      }
    }

    /** A reset timer fires 3000 ms after its subscribe: the flag goes back to false. */
    method ResetTimerFires()
      requires pendingResets > 0
      modifies this
      ensures !isSubscribed
      ensures pendingResets == old(pendingResets) - 1
      ensures email == old(email) && logged == old(logged)
    {
      isSubscribed := false;
      pendingResets := pendingResets - 1;
    }

    function Button(): (c: ButtonContent)
      reads this
      ensures c == Label("Subscribed!") <==> isSubscribed
    {
      if isSubscribed then Label("Subscribed!") else ArrowIcon
    }
  }

  /** Subscribe, then let the timer fire: the button is back to its arrow and the field is empty. */
  method SubscribeThenReset(address: string) returns (shownAfterSubscribe: ButtonContent, shownAfterTimer: ButtonContent, field: string)
    requires address != ""
    ensures shownAfterSubscribe == Label("Subscribed!")
    ensures shownAfterTimer == ArrowIcon
    ensures field == ""
  {
    var footer := new Footer();
    footer.SetEmail(address);
    footer.HandleSubscribe();
    shownAfterSubscribe := footer.Button();
    footer.ResetTimerFires();
    shownAfterTimer := footer.Button();
    field := footer.email;
  }
}
