/** The notification-template list (client/src/pages/manager/notifications.tsx):
    two drop-down filters, each with an "all" wildcard, and the labels shown
    for a template's type, trigger and active flag. */
module Notifications {
  import opened Wrappers
  import opened Schema
  import Seqs

  const All := "all"

  /** The value of one filter menu lets the given field through. */
  predicate FilterAdmits(filter: string, field: string) {
    filter == All || filter == field
  }

  predicate Matches(t: NotificationTemplate, typeFilter: string, triggerFilter: string) {
    FilterAdmits(typeFilter, t.templateType) && FilterAdmits(triggerFilter, t.trigger)
  }

  /** `filteredTemplates`; an absent list (still loading) shows no rows. */
  function FilterTemplates(templates: Option<seq<NotificationTemplate>>, typeFilter: string, triggerFilter: string)
    : (r: seq<NotificationTemplate>)
    ensures templates.None? ==> r == []
    ensures forall t :: t in r <==>
      && t in templates.GetOr([])
      && (typeFilter == All || t.templateType == typeFilter)
      && (triggerFilter == All || t.trigger == triggerFilter)
  {
    match templates
    case None => []
    case Some(ts) => Seqs.Filter(ts, t => Matches(t, typeFilter, triggerFilter))
  }

  /** With both menus on "all" every template is listed, in order. */
  lemma FilterAllAll(templates: seq<NotificationTemplate>)
    ensures FilterTemplates(Some(templates), All, All) == templates
  {
    Seqs.FilterKeepsAll(templates, t => Matches(t, All, All));
  }

  function Multiplicity(ts: seq<NotificationTemplate>, t: NotificationTemplate): nat {
    multiset(ts)[t]
  }

  /** The filtered list keeps the server's order and every row's multiplicity. */
  lemma FilterKeepsOrder(templates: seq<NotificationTemplate>, typeFilter: string, triggerFilter: string)
    ensures Seqs.IsSubsequence(FilterTemplates(Some(templates), typeFilter, triggerFilter), templates)
    ensures forall t ::
              Multiplicity(FilterTemplates(Some(templates), typeFilter, triggerFilter), t)
              == if Matches(t, typeFilter, triggerFilter) then Multiplicity(templates, t) else 0
  {
    var p := (t: NotificationTemplate) => Matches(t, typeFilter, triggerFilter);
    Seqs.FilterIsSubsequence(templates, p);
    forall t ensures multiset(Seqs.Filter(templates, p))[t] == if p(t) then multiset(templates)[t] else 0 {
      Seqs.FilterMultiplicity(templates, p, t);
    }
  }

  /** Filtering the filtered list with the same menus changes nothing. */
  lemma FilterIdempotent(templates: seq<NotificationTemplate>, typeFilter: string, triggerFilter: string)
    ensures var once := FilterTemplates(Some(templates), typeFilter, triggerFilter);
      FilterTemplates(Some(once), typeFilter, triggerFilter) == once
  {
    Seqs.FilterIdempotent(templates, t => Matches(t, typeFilter, triggerFilter));
  }

  /** Narrowing by the type menu and by the trigger menu one at a time gives
      the combined filter's rows, in either order. */
  lemma FiltersCommute(templates: seq<NotificationTemplate>, typeFilter: string, triggerFilter: string)
    ensures FilterTemplates(Some(FilterTemplates(Some(templates), typeFilter, All)), All, triggerFilter)
         == FilterTemplates(Some(templates), typeFilter, triggerFilter)
    ensures FilterTemplates(Some(FilterTemplates(Some(templates), All, triggerFilter)), typeFilter, All)
         == FilterTemplates(Some(templates), typeFilter, triggerFilter)
  {
    FilterComposes(templates, typeFilter, triggerFilter);
    FilterComposesTriggerFirst(templates, typeFilter, triggerFilter);
  }

  lemma {:induction false} FilterComposes(ts: seq<NotificationTemplate>, typeFilter: string, triggerFilter: string)
    ensures Seqs.Filter(Seqs.Filter(ts, t => Matches(t, typeFilter, All)), t => Matches(t, All, triggerFilter))
         == Seqs.Filter(ts, t => Matches(t, typeFilter, triggerFilter))
  {
    if ts != [] {
      FilterComposes(ts[1..], typeFilter, triggerFilter);
    }
  }

  lemma {:induction false} FilterComposesTriggerFirst(ts: seq<NotificationTemplate>, typeFilter: string, triggerFilter: string)
    ensures Seqs.Filter(Seqs.Filter(ts, t => Matches(t, All, triggerFilter)), t => Matches(t, typeFilter, All))
         == Seqs.Filter(ts, t => Matches(t, typeFilter, triggerFilter))
  {
    if ts != [] {
      FilterComposesTriggerFirst(ts[1..], typeFilter, triggerFilter);
    }
  }

  // -------------------------------------------------------------- labels

  /** `triggerLabels`. */
  const TriggerLabels: map<string, string> := map[
    "payment_late" := "Payment Late",
    "payment_due" := "Payment Due",
    "lien_warning" := "Lien Warning",
    "lien_filed" := "Lien Filed",
    "custom" := "Custom Trigger"]

  /** The trigger column: the five known triggers have a label; any other
      trigger that is not an inherited object property has none, and the
      cell stays empty. */
  function TriggerLabel(trigger: string): (r: Option<string>)
    ensures r.Some? <==> trigger in {"payment_late", "payment_due", "lien_warning", "lien_filed", "custom"}
    ensures r.Some? ==> r.value != ""
  {
    if trigger in TriggerLabels then Some(TriggerLabels[trigger]) else None
  }

  /** Every choice of the trigger menu other than "all" is a labelled trigger,
      and its menu text is that label. */
  const TriggerMenu: seq<(string, string)> := [
    ("payment_late", "Payment Late"),
    ("payment_due", "Payment Due"),
    ("lien_warning", "Lien Warning"),
    ("lien_filed", "Lien Filed"),
    ("custom", "Custom Trigger")]

  lemma TriggerMenuAgreesWithLabels()
    ensures forall i :: 0 <= i < |TriggerMenu| ==> TriggerLabel(TriggerMenu[i].0) == Some(TriggerMenu[i].1)
    ensures forall k :: k in TriggerLabels <==> exists i :: 0 <= i < |TriggerMenu| && TriggerMenu[i].0 == k
  {
    assert TriggerMenu[0].0 == "payment_late";
    assert TriggerMenu[1].0 == "payment_due";
    assert TriggerMenu[2].0 == "lien_warning";
    assert TriggerMenu[3].0 == "lien_filed";
    assert TriggerMenu[4].0 == "custom";
  }

  /** The type badge: "Email" for `email`, "SMS" for anything else. */
  function TypeLabel(templateType: string): (r: string)
    ensures r == "Email" <==> templateType == "email"
    ensures r == "SMS" <==> templateType != "email"
  {
    if templateType == "email" then "Email" else "SMS"
  }

  /** The status badge. */
  function ActiveLabel(isActive: bool): (r: string)
    ensures r == "Active" <==> isActive
    ensures r == "Inactive" <==> !isActive
  {
    if isActive then "Active" else "Inactive"
  }
}
