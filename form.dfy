/**
 The port form (src/types/components/PortForm.tsx): its initial values, its
 validation schema and the add-or-update choice made on submit. The form
 library only runs the submit handler when the schema passes, so `Submit`
 returns `Rejected` for values that fail it.
 */
module PortForm {
  import opened PortTypes

  /** What one submit does. */
  datatype SubmitAction =
    | Rejected                  // a field fails validation; no callback runs
    | CallUpdate(record: Port)  // `onUpdate(payload)`
    | CallAdd(fields: PortFields)  // `onAdd({...four fields})`

  predicate IsAsciiDigit(c: char) {
    '0' <= c <= '9'
  }

  /** `/^[0-9]+$/` together with `required`: at least one character, all digits. */
  predicate PortNumberValid(s: string) {
    |s| > 0 && forall i :: 0 <= i < |s| ==> IsAsciiDigit(s[i])
  }

  /** `Yup.string().required()`: the empty string is rejected, anything else
      (including blanks) is accepted. */
  predicate Required(s: string) {
    s != ""
  }

  /** The whole schema. `description` is not part of it. */
  predicate FormValid(v: PortFields) {
    PortNumberValid(v.portNumber) && Required(v.projectName) && Required(v.applicationName)
  }

  /** Initial values: the edited port's fields, or `""` for each one. */
  function InitialValues(port: Option<Port>): (v: PortFields)
    ensures port.None? ==> v == BlankFields
    ensures port.Some? ==> WithId(v, port.value.id) == port.value
  {
    match port
    case None => BlankFields
    case Some(p) => FieldsOf(p)
  }

  /** `onSubmit`: update when a port is being edited and `onUpdate` is given,
      add otherwise. `hasOnUpdate` says whether the caller passed `onUpdate`. */
  function Submit(port: Option<Port>, hasOnUpdate: bool, values: PortFields): (a: SubmitAction)
    ensures a.Rejected? <==> !FormValid(values)
    ensures a.CallUpdate? <==> FormValid(values) && port.Some? && hasOnUpdate
    ensures a.CallUpdate? ==> a.record.id == port.value.id && FieldsOf(a.record) == values
    ensures a.CallAdd? ==> a.fields == values
  {
    if !FormValid(values) then Rejected
    else if port.Some? && hasOnUpdate then CallUpdate(WithId(values, port.value.id))
    else CallAdd(values)
  }

  /** The port number rule is exactly "non-empty and only ASCII digits". */
  lemma PortNumberRule(s: string)
    ensures PortNumberValid(s) <==> s != "" && forall c :: c in s ==> '0' <= c <= '9'
  {
    if s != "" && forall c :: c in s ==> '0' <= c <= '9' {
      forall i | 0 <= i < |s| ensures IsAsciiDigit(s[i]) {
        assert s[i] in s;
      }
    }
  }

  /** A blank project or application name blocks the submit whatever the
      other fields hold. */
  lemma RequiredNamesBlockSubmit(port: Option<Port>, hasOnUpdate: bool, v: PortFields)
    requires v.projectName == "" || v.applicationName == "" || v.portNumber == ""
    ensures Submit(port, hasOnUpdate, v) == Rejected
  {
  }

  /** The description never affects validity or which callback runs. */
  lemma DescriptionUnconstrained(port: Option<Port>, hasOnUpdate: bool, v: PortFields, d: string)
    ensures FormValid(v.(description := d)) == FormValid(v)
    ensures Submit(port, hasOnUpdate, v.(description := d)).CallUpdate? == Submit(port, hasOnUpdate, v).CallUpdate?
    ensures Submit(port, hasOnUpdate, v.(description := d)).CallAdd? == Submit(port, hasOnUpdate, v).CallAdd?
  {
  }

  /** Submitting the untouched form of a valid edited port sends back that
      very port. */
  lemma UnchangedEditSubmitsSamePort(p: Port)
    requires FormValid(FieldsOf(p))
    ensures Submit(Some(p), true, InitialValues(Some(p))) == CallUpdate(p)
  {
  }

  /** A fresh form fails validation until the user fills it in. */
  lemma BlankFormIsRejected(hasOnUpdate: bool)
    ensures Submit(None, hasOnUpdate, InitialValues(None)) == Rejected
  {
  }
}
