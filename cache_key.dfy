/**
 * The fragment-cache key of the proposals index (`index_cache_key_for`):
 * a string built from the optional event's id and accepting state and the
 * admin flag. `ParseIndexCacheKey` reads a key back; the round trip shows
 * that the key records exactly those inputs and nothing else.
 */
module CacheKey {
  import opened Wrappers
  import opened Records
  import Decimal

  /** Ruby's `true.to_s` / `false.to_s`. */
  function BoolText(b: bool): string {
    if b then "true" else "false"
  }

  predicate StartsWith(s: string, prefix: string) {
    |prefix| <= |s| && s[..|prefix|] == prefix
  }

  predicate EndsWith(s: string, suffix: string) {
    |suffix| <= |s| && s[|s| - |suffix|..] == suffix
  }

  const KeyPrefix := "proposals_index,"

  /** The middle part: the event's id and accepting state, or "all_proposals". */
  function ScopeText(event: Option<Event>): string {
    if event.Some? then
      "event_" + Decimal.IntToString(event.value.id) + ",accepting_" + BoolText(event.value.acceptingProposals)
    else
      "all_proposals"
  }

  function IndexCacheKeyFor(event: Option<Event>, isAdmin: bool): string {
    var s := KeyPrefix;
    var s := s + ScopeText(event);
    s + ",admin_" + BoolText(isAdmin)
  }

  /** What a key can tell apart: which event (id, accepting state) or none, and the admin flag. */
  datatype Scope = AllProposals | EventScope(id: int, accepting: bool)
  datatype KeyFields = KeyFields(scope: Scope, admin: bool)

  function ScopeOf(event: Option<Event>): Scope {
    match event
    case None => AllProposals
    case Some(e) => EventScope(e.id, e.acceptingProposals)
  }

  /** Splits `s` into a text and the boolean written after `tag` at its end. */
  function StripBool(s: string, tag: string): Option<(string, bool)> {
    if EndsWith(s, tag + "true") then Some((s[..|s| - |tag| - 4], true))
    else if EndsWith(s, tag + "false") then Some((s[..|s| - |tag| - 5], false))
    else None
  }

  function ParseScope(text: string): Option<Scope> {
    if text == "all_proposals" then Some(AllProposals)
    else if StartsWith(text, "event_") then
      match StripBool(text[6..], ",accepting_")
      case None => None
      case Some((idText, accepting)) =>
        match Decimal.ParseInt(idText)
        case None => None
        case Some(id) => Some(EventScope(id, accepting))
    else None
  }

  /** Reads the inputs back out of a key; None when `key` is not one. */
  function ParseIndexCacheKey(key: string): Option<KeyFields> {
    if !StartsWith(key, KeyPrefix) then None
    else
      match StripBool(key[|KeyPrefix|..], ",admin_")
      case None => None
      case Some((scopeText, admin)) =>
        match ParseScope(scopeText)
        case None => None
        case Some(scope) => Some(KeyFields(scope, admin))
  }

  lemma StripBoolAppended(text: string, tag: string, b: bool)
    ensures StripBool(text + tag + BoolText(b), tag) == Some((text, b))
  {
    var s := text + tag + BoolText(b);
    if b {
      assert s == text + (tag + "true");
      assert s[|s| - |tag| - 4..] == tag + "true";
      assert s[..|s| - |tag| - 4] == text;
    } else {
      assert s == text + (tag + "false");
      assert s[|s| - 2] == 's';
      assert (tag + "true")[|tag| + 2] == 'u';
      assert s[|s| - |tag| - 5..] == tag + "false";
      assert s[..|s| - |tag| - 5] == text;
    }
  }

  lemma ParseScopeText(event: Option<Event>)
    ensures ParseScope(ScopeText(event)) == Some(ScopeOf(event))
  {
    if event.Some? {
      var e := event.value;
      var idText := Decimal.IntToString(e.id);
      var text := ScopeText(event);
      assert text[0] == 'e';
      assert text == "event_" + (idText + ",accepting_" + BoolText(e.acceptingProposals));
      assert text[6..] == idText + ",accepting_" + BoolText(e.acceptingProposals);
      StripBoolAppended(idText, ",accepting_", e.acceptingProposals);
      Decimal.IntToStringRoundTrip(e.id);
    }
  }

  /** Round trip: a key records the event's id and accepting state (or their absence) and the admin flag. */
  lemma ParseInvertsKey(event: Option<Event>, isAdmin: bool)
    ensures ParseIndexCacheKey(IndexCacheKeyFor(event, isAdmin)) == Some(KeyFields(ScopeOf(event), isAdmin))
  {
    var key := IndexCacheKeyFor(event, isAdmin);
    assert key == KeyPrefix + (ScopeText(event) + ",admin_" + BoolText(isAdmin));
    assert key[|KeyPrefix|..] == ScopeText(event) + ",admin_" + BoolText(isAdmin);
    StripBoolAppended(ScopeText(event), ",admin_", isAdmin);
    ParseScopeText(event);
  }

  /** Two keys are equal exactly when they come from the same event id, accepting state and admin flag. */
  lemma KeyDeterminedByScopeAndAdmin(e1: Option<Event>, a1: bool, e2: Option<Event>, a2: bool)
    ensures IndexCacheKeyFor(e1, a1) == IndexCacheKeyFor(e2, a2) <==> ScopeOf(e1) == ScopeOf(e2) && a1 == a2
  {
    if IndexCacheKeyFor(e1, a1) == IndexCacheKeyFor(e2, a2) {
      ParseInvertsKey(e1, a1);
      ParseInvertsKey(e2, a2);
    }
  }

  /** Admins and everyone else never share a cache entry. */
  lemma AdminKeysDiffer(e1: Option<Event>, e2: Option<Event>)
    ensures IndexCacheKeyFor(e1, true) != IndexCacheKeyFor(e2, false)
  {
    KeyDeterminedByScopeAndAdmin(e1, true, e2, false);
  }

  lemma EventOneScopeText(title: string)
    ensures ScopeText(Some(Event(1, title, true))) == "event_1,accepting_true"
  {
    Decimal.OneIsWrittenOne();
  }

  /** The key the controller's examples expect for event 1, accepting, seen by an admin. */
  lemma KnownEventKey(title: string)
    ensures IndexCacheKeyFor(Some(Event(1, title, true)), true) == "proposals_index,event_1,accepting_true,admin_true"
  {
    EventOneScopeText(title);
  }

  /** The keys the controller's examples expect when there is no event. */
  lemma KnownAllProposalsKeys()
    ensures IndexCacheKeyFor(None, true) == "proposals_index,all_proposals,admin_true"
    ensures IndexCacheKeyFor(None, false) == "proposals_index,all_proposals,admin_false"
  {
  }
}
