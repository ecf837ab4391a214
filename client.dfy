/**
 * The desktop client's own rules: the relative-time label of a conversation
 * card, the length checks on the account and login forms, the guard against
 * searching for oneself, and the per-contact unread counters (`nao_lidas`).
 * Widgets, HTTP calls and the websocket thread are not modelled; a user
 * lookup enters as whether it answered HTTP 200. Through the gateway an
 * unknown user also answers 200, with an error body, so 200 does not mean
 * that the user exists.
 */
module Client {
  import opened Wrappers

  type Identity = string

  // ---------------------------------------------------------------------
  // Relative time (`tempo_relativo`)
  // ---------------------------------------------------------------------

  /** The four shapes of the label: "agora", "há N min", "há N h", "há N d". */
  datatype Elapsed = JustNow | MinutesAgo(n: nat) | HoursAgo(n: nat) | DaysAgo(n: nat)

  /** Buckets a (floored) number of elapsed seconds; seconds may be negative for a clock ahead of ours. */
  function Classify(seconds: int): (r: Elapsed)
    ensures r == JustNow <==> seconds < 60
    ensures r.MinutesAgo? <==> 60 <= seconds < 3600
    ensures r.HoursAgo? <==> 3600 <= seconds < 86400
    ensures r.DaysAgo? <==> 86400 <= seconds
    ensures r.MinutesAgo? ==> 1 <= r.n <= 59 && r.n * 60 <= seconds < (r.n + 1) * 60
    ensures r.HoursAgo? ==> 1 <= r.n <= 23 && r.n * 3600 <= seconds < (r.n + 1) * 3600
    ensures r.DaysAgo? ==> 1 <= r.n && r.n * 86400 <= seconds < (r.n + 1) * 86400
  {
    if seconds < 60 then JustNow
    else if seconds < 3600 then MinutesAgo(seconds / 60)
    else if seconds < 86400 then HoursAgo(seconds / 3600)
    else DaysAgo(seconds / 86400)
  }

  function DigitChar(d: nat): char
    requires d < 10
  {
    ('0' as int + d) as char
  }

  predicate IsDigit(c: char) { '0' <= c <= '9' }

  /** Python's `str(n)` for a natural number. */
  function NatToString(n: nat): (r: string)
    ensures |r| >= 1
    ensures forall i :: 0 <= i < |r| ==> IsDigit(r[i])
    ensures n > 0 ==> r[0] != '0'
  {
    if n < 10 then [DigitChar(n)] else NatToString(n / 10) + [DigitChar(n % 10)]
  }

  /** The value of a string of decimal digits. */
  function ParseDecimal(s: string): nat
    requires forall i :: 0 <= i < |s| ==> IsDigit(s[i])
  {
    if s == [] then 0
    else
      assert IsDigit(s[|s| - 1]);
      ParseDecimal(s[..|s| - 1]) * 10 + (s[|s| - 1] as int - '0' as int)
  }

  lemma {:induction false} ParseNatToString(n: nat)
    ensures ParseDecimal(NatToString(n)) == n
  {
    var s := NatToString(n);
    if n >= 10 {
      ParseNatToString(n / 10);
      assert s[..|s| - 1] == NatToString(n / 10);
    }
  }

  /** The text of a label. */
  function Render(e: Elapsed): string {
    match e
    case JustNow => "agora"
    case MinutesAgo(n) => "há " + NatToString(n) + " min"
    case HoursAgo(n) => "há " + NatToString(n) + " h"
    case DaysAgo(n) => "há " + NatToString(n) + " d"
  }

  /** `tempo_relativo` over the elapsed seconds. */
  function RelativeTime(seconds: int): string {
    Render(Classify(seconds))
  }

  /** The last character of each kind of label: a, n, h, d. */
  function LastChar(e: Elapsed): char {
    match e
    case JustNow => 'a'
    case MinutesAgo(_) => 'n'
    case HoursAgo(_) => 'h'
    case DaysAgo(_) => 'd'
  }

  function Unit(e: Elapsed): string {
    if e.MinutesAgo? then " min" else if e.HoursAgo? then " h" else " d"
  }

  lemma RenderShape(e: Elapsed)
    ensures |Render(e)| > 0 && Render(e)[|Render(e)| - 1] == LastChar(e)
    ensures !e.JustNow? ==> Render(e) == "há " + NatToString(e.n) + Unit(e)
  {
  }

  /** Different buckets or counts never share a label: the label can be read back. */
  lemma RenderInjective(a: Elapsed, b: Elapsed)
    requires Render(a) == Render(b)
    ensures a == b
  {
    RenderShape(a);
    RenderShape(b);
    assert LastChar(a) == LastChar(b);
    if !a.JustNow? {
      var s, da, db := Render(a), NatToString(a.n), NatToString(b.n);
      // strip the prefix and the unit: what remains are the digits
      assert s[3..|s| - |Unit(a)|] == da;
      assert s[3..|s| - |Unit(b)|] == db;
      ParseNatToString(a.n);
      ParseNatToString(b.n);
    }
  }

  /** The label is "agora" exactly for fewer than 60 seconds. */
  lemma RelativeTimeNow(seconds: int)
    ensures RelativeTime(seconds) == "agora" <==> seconds < 60
  {
    RenderShape(Classify(seconds));
  }

  // ---------------------------------------------------------------------
  // Form checks (`__create_account`, `__login`)
  // ---------------------------------------------------------------------

  /** The characters Python's `str.strip()` removes: Unicode White_Space plus the separators 0x1C-0x1F. */
  predicate IsSpace(c: char) {
    || '\t' <= c <= '\r'                  // tab, line feed, vertical tab, form feed, carriage return
    || '\U{1c}' <= c <= ' '                // the four separators and space
    || c == '\U{85}' || c == '\U{a0}' || c == '\U{1680}'
    || '\U{2000}' <= c <= '\U{200a}'
    || c == '\U{2028}' || c == '\U{2029}' || c == '\U{202f}' || c == '\U{205f}' || c == '\U{3000}'
  }

  function TrimStart(s: string): string {
    if s != [] && IsSpace(s[0]) then TrimStart(s[1..]) else s
  }

  function TrimEnd(s: string): string {
    if s != [] && IsSpace(s[|s| - 1]) then TrimEnd(s[..|s| - 1]) else s
  }

  /** TrimStart drops a prefix of white space and stops at the first other character. */
  lemma {:induction false} TrimStartSpec(s: string)
    ensures |TrimStart(s)| <= |s| && TrimStart(s) == s[|s| - |TrimStart(s)|..]
    ensures forall k :: 0 <= k < |s| - |TrimStart(s)| ==> IsSpace(s[k])
    ensures TrimStart(s) != [] ==> !IsSpace(TrimStart(s)[0])
  {
    if s != [] && IsSpace(s[0]) {
      var tl := s[1..];
      TrimStartSpec(tl);
      var r := TrimStart(tl);
      assert TrimStart(s) == r;
      assert tl[|tl| - |r|..] == s[|s| - |r|..];
      forall k | 1 <= k < |s| - |r| ensures IsSpace(s[k]) {
        assert s[k] == tl[k - 1];
      }
    }
  }

  /** TrimEnd drops a suffix of white space and stops at the last other character. */
  lemma {:induction false} TrimEndSpec(s: string)
    ensures |TrimEnd(s)| <= |s| && TrimEnd(s) == s[..|TrimEnd(s)|]
    ensures forall k :: |TrimEnd(s)| <= k < |s| ==> IsSpace(s[k])
    ensures TrimEnd(s) != [] ==> !IsSpace(TrimEnd(s)[|TrimEnd(s)| - 1])
  {
    if s != [] && IsSpace(s[|s| - 1]) {
      var init := s[..|s| - 1];
      TrimEndSpec(init);
      var r := TrimEnd(init);
      assert TrimEnd(s) == r;
      assert init[..|r|] == s[..|r|];
      forall k | |r| <= k < |s| - 1 ensures IsSpace(s[k]) {
        assert s[k] == init[k];
      }
    }
  }

  /** `str.strip()`: the slice of `s` left after removing leading and trailing white space. */
  function Strip(s: string): (r: string)
    ensures exists i, j ::
      && 0 <= i <= j <= |s| && r == s[i..j]
      && (forall k :: 0 <= k < i ==> IsSpace(s[k]))
      && (forall k :: j <= k < |s| ==> IsSpace(s[k]))
    ensures r != [] ==> !IsSpace(r[0]) && !IsSpace(r[|r| - 1])
  {
    var t := TrimStart(s);
    var r := TrimEnd(t);
    var i := |s| - |t|;
    TrimStartSpec(s);
    TrimEndSpec(t);
    assert r == s[i..i + |r|];
    forall k | i + |r| <= k < |s| ensures IsSpace(s[k]) {
      assert s[k] == t[k - i];
    }
    r
  }

  /** A field passes when at least three characters remain after stripping. */
  predicate LongEnough(value: string) {
    |Strip(value)| >= 3
  }

  /** The loop over the payload: the index of the first field that is too short, if any. */
  method FirstShortField(fields: seq<(string, string)>) returns (failed: Option<nat>)
    ensures failed.None? <==> forall k :: 0 <= k < |fields| ==> LongEnough(fields[k].1)
    ensures failed.Some? ==>
      && failed.value < |fields|
      && !LongEnough(fields[failed.value].1)
      && forall k :: 0 <= k < failed.value ==> LongEnough(fields[k].1)
  {
    var i := 0;
    while i < |fields|
      invariant 0 <= i <= |fields|
      invariant forall k :: 0 <= k < i ==> LongEnough(fields[k].1)
    {
      if |Strip(fields[i].1)| < 3 {
        return Some(i);
      }
      i := i + 1;
    }
    return None;
  }

  /** ASCII upper-casing; the payload keys are ASCII. */
  function AsciiUpper(s: string): (r: string)
    ensures |r| == |s|
  {
    if s == [] then []
    else
      var c := s[0];
      [if 'a' <= c <= 'z' then (c as int - 32) as char else c] + AsciiUpper(s[1..])
  }

  function FieldTooShort(key: string): string {
    "O campo [" + AsciiUpper(key) + "] precisa tem mais de três caracteres"
  }

  const PasswordsDiffer: string := "As senhas não são iguais"

  /** What a form submission leads to: a warning box, or the request with this JSON payload. */
  datatype FormOutcome = Warning(message: string) | Submit(payload: seq<(string, string)>)

  function AccountPayload(name: string, username: string, email: string, password: string): seq<(string, string)> {
    [("name", name), ("username", username), ("email", email), ("password", password)]
  }

  /**
   * `__create_account` up to the request: the first short field in the order
   * name, username, email, password is reported; only when all are long
   * enough are the two password boxes compared (unstripped).
   */
  method CheckAccountForm(name: string, username: string, email: string, password: string, confirmation: string)
    returns (r: FormOutcome)
    ensures var p := AccountPayload(name, username, email, password);
      forall i :: 0 <= i < |p| && !LongEnough(p[i].1) && (forall k :: 0 <= k < i ==> LongEnough(p[k].1)) ==>
        r == Warning(FieldTooShort(p[i].0))
    ensures LongEnough(name) && LongEnough(username) && LongEnough(email) && LongEnough(password) ==>
      r == if password != confirmation then Warning(PasswordsDiffer)
           else Submit(AccountPayload(name, username, email, password))
    ensures r.Submit? <==>
      LongEnough(name) && LongEnough(username) && LongEnough(email) && LongEnough(password) && password == confirmation
  {
    var payload := AccountPayload(name, username, email, password);
    var failed := FirstShortField(payload);
    if failed.Some? {
      return Warning(FieldTooShort(payload[failed.value].0));
    }
    assert LongEnough(payload[0].1) && LongEnough(payload[1].1);
    assert LongEnough(payload[2].1) && LongEnough(payload[3].1);
    if password != confirmation {
      return Warning(PasswordsDiffer);
    }
    return Submit(payload);
  }

  /** `__login` up to the request: username, then password, must be long enough. */
  method CheckLoginForm(username: string, password: string) returns (r: FormOutcome)
    ensures !LongEnough(username) ==> r == Warning(FieldTooShort("username"))
    ensures LongEnough(username) && !LongEnough(password) ==> r == Warning(FieldTooShort("password"))
    ensures LongEnough(username) && LongEnough(password) ==> r == Submit([("username", username), ("password", password)])
  {
    var payload := [("username", username), ("password", password)];
    var failed := FirstShortField(payload);
    if failed.Some? {
      return Warning(FieldTooShort(payload[failed.value].0));
    }
    assert LongEnough(payload[0].1) && LongEnough(payload[1].1);
    return Submit(payload);
  }

  // ---------------------------------------------------------------------
  // The session: current contact, conversation cards and unread counters
  // ---------------------------------------------------------------------

  /** What `__add_contact` does with a search. */
  datatype SearchAction = Ignored | ChatOpened | NotFoundWarning

  /** How `mensagem_recebida` ends: counted, or a KeyError on the counter (line 259) or the card (line 261). */
  datatype ReceiveOutcome = Counted | MissingCounter | MissingCard

  /** How `open_contact_chat` ends: opened, a warning for a non-200 answer, or a KeyError on the card. */
  datatype OpenOutcome = Opened | OpenNotFound | OpenMissingCard

  class Session {
    /** `nao_lidas`: unread messages per contact. */
    var unread: map<Identity, nat>
    /** The keys of `cards_conversas`. */
    var cards: set<Identity>
    /** The username of `current_contact`, if any. */
    var currentContact: Option<Identity>

    /** A card is always created together with its counter. */
    ghost predicate Valid()
      reads this
    {
      cards <= unread.Keys
    }

    constructor ()
      ensures Valid()
      ensures unread == map[] && cards == {} && currentContact == None
    {
      unread := map[];
      cards := {};
      currentContact := None;
    }

    /** A successful login starts with no cards and no counters. */
    method LoginSucceeded()
      requires Valid()
      modifies this
      ensures Valid()
      ensures unread == map[] && cards == {} && currentContact == old(currentContact)
    {
      unread := map[];
      cards := {};
    }

    /**
     * A conversation card is made for `contact`, whose last message is
     * `elapsed` seconds old (`criar_card_conversa` and the caller storing the
     * card): a missing counter starts at 0, and a zero counter of a contact
     * active within the last minute becomes 1.
     */
    method CardCreated(contact: Identity, elapsed: int)
      requires Valid()
      modifies this
      ensures Valid()
      ensures cards == old(cards) + {contact} && currentContact == old(currentContact)
      ensures unread == old(unread)[contact :=
        if contact in old(unread) && old(unread)[contact] > 0 then old(unread)[contact]
        else if elapsed < 60 then 1 else 0]
    {
      var relative := RelativeTime(elapsed);
      RelativeTimeNow(elapsed);
      if contact !in unread {
        unread := unread[contact := 0];
      }
      if relative == "agora" && unread[contact] == 0 {
        unread := unread[contact := 1];
      }
      cards := cards + {contact};
    }

    /**
     * A live message from `sender` arrives. Without a card, the sender is
     * looked up and, if the lookup answered 200, gets a new card with counter 0.
     * Then the counter goes up by one.
     */
    method MessageReceived(sender: Identity, answered200: bool) returns (o: ReceiveOutcome)
      requires Valid()
      modifies this
      ensures Valid()
      ensures currentContact == old(currentContact)
      ensures o == MissingCounter <==> sender !in old(unread) && !answered200
      ensures o == MissingCard <==> sender in old(unread) && sender !in old(cards) && !answered200
      ensures o == MissingCounter ==> unread == old(unread) && cards == old(cards)
      ensures o != MissingCounter ==>
        && cards == (if answered200 then old(cards) + {sender} else old(cards))
        && unread == old(unread)[sender :=
             (if sender in old(cards) || !answered200 then old(unread)[sender] else 0) + 1]
      ensures sender in old(cards) ==> o == Counted && unread[sender] == old(unread)[sender] + 1
    {
      if sender !in cards {
        if answered200 {
          CardCreated(sender, 0);
          unread := unread[sender := 0];
        }
      }
      if sender !in unread {
        return MissingCounter;
      }
      unread := unread[sender := unread[sender] + 1];
      if sender !in cards {
        return MissingCard;
      }
      return Counted;
    }

    /** A card is clicked (or the current chat reopened): `answered200` says whether the lookup answered HTTP 200. */
    method OpenContactChat(contact: Identity, answered200: bool) returns (o: OpenOutcome)
      requires Valid()
      modifies this
      ensures Valid()
      ensures cards == old(cards)
      ensures !answered200 ==> o == OpenNotFound && unread == old(unread) && currentContact == old(currentContact)
      ensures answered200 ==> currentContact == Some(contact) && unread == old(unread)[contact := 0]
      ensures answered200 ==> o == if contact in cards then Opened else OpenMissingCard
    {
      if !answered200 {
        return OpenNotFound;
      }
      currentContact := Some(contact);
      unread := unread[contact := 0];
      if contact !in cards {
        return OpenMissingCard;
      }
      return Opened;
    }

    /**
     * `__add_contact`: searching for one's own username does nothing at all;
     * otherwise the chat opens on a 200 answer and a warning is shown on any other.
     */
    method AddContact(own: Identity, search: Identity, answered200: bool) returns (a: SearchAction)
      requires Valid()
      modifies this
      ensures Valid()
      ensures unread == old(unread) && cards == old(cards)
      ensures a == Ignored <==> search == own
      ensures search != own ==> a == (if answered200 then ChatOpened else NotFoundWarning)
      ensures currentContact == if search != own && answered200 then Some(search) else old(currentContact)
    {
      if search == own {
        return Ignored;
      }
      if answered200 {
        currentContact := Some(search);
        return ChatOpened;
      }
      return NotFoundWarning;
    }
  }
}
