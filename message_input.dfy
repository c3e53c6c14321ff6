/**
 * The chat message box (frontend/src/pages/chat/components/MessageInput.tsx):
 * a draft the text field overwrites, a send that trims the draft and clears
 * it, the Enter-key rule, the disabled send button and the length counter.
 *
 * The chat store's `sendMessage` is not part of this model; a send returns
 * the call it would make instead.
 */
module MessageInput {
  import opened Optional
  import opened JsString
  import opened JsNumber

  /** The text field's `maxLength`. */
  const MaxLength := 1000
  /** The counter appears above this many characters. */
  const CounterThreshold := 800

  /** The chat partner selected in the store and the signed-in user, as far as a send reads them. */
  datatype ChatPartner = ChatPartner(clerkId: string)
  datatype SignedInUser = SignedInUser(id: string)

  /** One `sendMessage(receiverId, senderId, content)` call. */
  datatype Outgoing = Outgoing(receiverId: string, senderId: string, content: string)

  /**
   * The call `handleSend` makes for a draft, or `None` when its guard returns
   * early: no partner, no user, or a draft that is empty or all whitespace.
   * A call goes to the partner's Clerk id, from the user's id, with the trimmed draft.
   */
  function SendCall(draft: string, partner: Option<ChatPartner>, user: Option<SignedInUser>): (r: Option<Outgoing>)
    ensures r.None? <==> partner.None? || user.None? || IsBlank(draft)
    ensures r.Some? ==>
      && r.value.receiverId == partner.value.clerkId
      && r.value.senderId == user.value.id
      && r.value.content == Trim(draft)
  {
    TrimEmptyIffBlank(draft);
    if partner.None? || user.None? || Trim(draft) == "" then None
    else Some(Outgoing(partner.value.clerkId, user.value.id, Trim(draft)))
  }

  /** `e.key === "Enter" && !e.shiftKey`. */
  predicate SendsOnKey(key: string, shift: bool) {
    key == "Enter" && !shift
  }

  /** `disabled={!newMessage.trim()}`: disabled exactly when the draft is empty or all whitespace. */
  predicate SendDisabled(draft: string)
    ensures SendDisabled(draft) <==> IsBlank(draft)
  {
    TrimEmptyIffBlank(draft);
    Trim(draft) == ""
  }

  /** The counter shows above 800 characters; for a draft the field allows, that is 801 to 1000. */
  predicate ShowsCounter(draft: string)
    ensures |draft| <= MaxLength ==> (ShowsCounter(draft) <==> 801 <= |draft| <= 1000)
  {
    |draft| > CounterThreshold
  }

  /**
   * The counter's text, `{newMessage.length}/1000`: the length's canonical numeral (no
   * leading zeros), then `/1000`.
   */
  function CounterText(draft: string): (r: string)
    ensures var count := BeforeFirst(r, '/');
      && r == count + "/1000"
      && AllDigits(count) && Canonical(count) && DecimalValue(count) == |draft|
  {
    var count := NatToDecimal(|draft|);
    assert '/' !in count by {
      forall i | 0 <= i < |count| ensures count[i] != '/' {
        assert IsAsciiDigit(count[i]);
      }
    }
    var r := count + "/1000";
    assert r == count + "/" + "1000";
    BeforeFirstOfJoin(count, '/', "1000");
    r
  }

  class MessageBox {
    /** `newMessage`. */
    var draft: string

    ghost predicate Valid()
      reads this
    {
      |draft| <= MaxLength
    }

    constructor ()
      ensures Valid() && draft == ""
    {
      draft := "";
    }

    /**
     * `onChange`: the field's value replaces the draft. The field's
     * `maxLength` keeps every value it reports within 1000 characters.
     */
    method Change(value: string)
      requires |value| <= MaxLength
      modifies this
      ensures Valid() && draft == value
    {
      draft := value;
    }

    /** `handleSend`: at most one call, with the trimmed draft; the draft is cleared only when a call is made. */
    method Send(partner: Option<ChatPartner>, user: Option<SignedInUser>) returns (sent: Option<Outgoing>)
      requires Valid()
      modifies this
      ensures Valid()
      ensures sent == SendCall(old(draft), partner, user)
      ensures draft == if sent.None? then old(draft) else ""
    {
      sent := SendCall(draft, partner, user);
      if sent.Some? {
        draft := "";
      }
    }

    /** `handleKeyDown`: Enter without Shift prevents the default action and sends; any other key leaves all as it was. */
    method KeyDown(key: string, shift: bool, partner: Option<ChatPartner>, user: Option<SignedInUser>)
      returns (prevented: bool, sent: Option<Outgoing>)
      requires Valid()
      modifies this
      ensures Valid()
      ensures prevented == SendsOnKey(key, shift)
      ensures sent == if prevented then SendCall(old(draft), partner, user) else None
      ensures draft == if sent.None? then old(draft) else ""
    {
      prevented := key == "Enter" && !shift;
      if prevented {
        sent := Send(partner, user);
      } else {
        sent := None;
      }
    }
  }

  /** The content sent is never empty, has no whitespace at either end, and trimming it again changes nothing. */
  lemma SentContentIsTrimmed(draft: string, partner: Option<ChatPartner>, user: Option<SignedInUser>)
    requires SendCall(draft, partner, user).Some?
    ensures var c := SendCall(draft, partner, user).value.content;
      && c != "" && !IsWhitespace(c[0]) && !IsWhitespace(c[|c| - 1])
      && Trim(c) == c
      && |c| <= |draft|
  {
    TrimIdempotent(draft);
  }

  /** With a partner and a user, the send button is disabled exactly when a send would make no call. */
  lemma DisabledIffNoSend(draft: string, partner: ChatPartner, user: SignedInUser)
    ensures SendDisabled(draft) <==> SendCall(draft, Some(partner), Some(user)).None?
  {
  }
}
