/** The display label of an equipment status: the four known statuses have
    Portuguese labels, anything else is shown as it is. */
module StatusLabels {

  /** The label table. */
  const Labels: map<string, string> :=
    map["online" := "Online", "offline" := "Offline", "fault" := "Falha", "warning" := "Alerta"]

  /** `getStatusLabel`: the table's label for a known status, the status
      itself for every other one. */
  function GetStatusLabel(status: string): (shown: string)
    ensures status in Labels ==> shown == Labels[status]
    ensures status !in Labels ==> shown == status
  {
    if status in Labels then Labels[status] else status
  }

  /** The four statuses and their labels. */
  lemma KnownLabels()
    ensures GetStatusLabel("online") == "Online"
    ensures GetStatusLabel("offline") == "Offline"
    ensures GetStatusLabel("fault") == "Falha"
    ensures GetStatusLabel("warning") == "Alerta"
  {
  }

  /** No label is itself a status of the table, so labelling twice is
      labelling once. */
  lemma {:induction false} GetStatusLabelIdempotent(status: string)
    ensures GetStatusLabel(GetStatusLabel(status)) == GetStatusLabel(status)
  {
    if status in Labels {
      LabelsAreNotStatuses(Labels[status]);
    }
  }

  lemma LabelsAreNotStatuses(text: string)
    requires text in Labels.Values
    ensures text !in Labels
  {
    assert "Online"[0] != "online"[0];
    assert "Offline"[0] != "offline"[0];
  }

  /** The label is empty exactly when the status is. */
  lemma EmptyOnlyFromEmpty(status: string)
    ensures GetStatusLabel(status) == "" <==> status == ""
  {
    if status in Labels {
      assert GetStatusLabel(status) in Labels.Values;
    }
  }

  // ---------------------------------------------------------------------
  // The lookup as written
  // ---------------------------------------------------------------------

  /** The names a plain object literal inherits from `Object.prototype`;
      reading any of them off the table yields a function or an object. */
  const InheritedMembers: set<string> := {
    "constructor", "hasOwnProperty", "isPrototypeOf", "propertyIsEnumerable",
    "toLocaleString", "toString", "valueOf", "__proto__",
    "__defineGetter__", "__defineSetter__", "__lookupGetter__", "__lookupSetter__"
  }

  /** What `labels[status] || status` can evaluate to: a string, or an
      inherited member of the table (truthy, so `||` keeps it). */
  datatype Lookup = Text(text: string) | Member(name: string)

  /** `labels[status] || status` with the table an ordinary object: the
      property read walks the prototype chain. */
  function GetStatusLabelAsWritten(status: string): (r: Lookup)
    ensures r.Member? <==> status !in Labels && status in InheritedMembers
  {
    if status in Labels then Text(Labels[status])
    else if status in InheritedMembers then Member(status)
    else Text(status)
  }

  /** The lookup as written gives the label exactly on the statuses of the
      table and on every name that is not an inherited member. */
  lemma AsWrittenAgrees(status: string)
    ensures GetStatusLabelAsWritten(status) == Text(GetStatusLabel(status)) <==>
      status in Labels || status !in InheritedMembers
  {
  }

  /** The status "constructor" yields the `Object` function instead of a
      label or the status itself. */
  lemma ConstructorIsNotLabelled()
    ensures GetStatusLabelAsWritten("constructor") == Member("constructor")
    ensures GetStatusLabelAsWritten("constructor") != Text(GetStatusLabel("constructor"))
  {
    assert "constructor" !in Labels by {
      assert "constructor"[0] != "online"[0];
      assert "constructor"[0] != "offline"[0];
      assert "constructor"[0] != "fault"[0];
      assert "constructor"[0] != "warning"[0];
    }
  }
}
