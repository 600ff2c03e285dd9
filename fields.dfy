/**
 * Lines 82-91 of the POST route: every form field is read with a `''` default, the text
 * fields are trimmed, `contact` is kept only when it is non-empty, and the request is
 * refused when one of the four required fields is empty after trimming.
 */
module Fields {
  import opened Wrappers
  import opened JsText

  /** A submission after normalisation: the values the route stores. */
  datatype SchoolFields = SchoolFields(
    name: string, address: string, city: string, state: string,
    contact: Option<string>, emailId: string)

  const RequiredKeys: seq<string> := ["name", "address", "city", "state"]

  /** A submitted field, with an absent one read as the empty string. */
  function RawField(fields: map<string, string>, key: string): string {
    if key in fields then fields[key] else ""
  }

  /** A text field as the route reads it: the submitted value with a `''` default, then trimmed. */
  function TextField(fields: map<string, string>, key: string): (r: string)
    ensures !HasEdgeWhitespace(r)
    ensures key !in fields ==> r == ""
    ensures r == "" <==> AllWhitespace(RawField(fields, key))
  {
    TrimEmptyIff(RawField(fields, key));
    Trim(RawField(fields, key))
  }

  /**
   * Line 86: `contact` is kept when it was sent non-empty, and is `null` otherwise. The number
   * conversion is not modelled: a present value stands for the number made of the raw text.
   */
  function ContactField(fields: map<string, string>): (r: Option<string>)
    ensures r.None? <==> RawField(fields, "contact") == ""
    ensures r.Some? ==> r.value == fields["contact"]
  {
    if Truthy(Lookup(fields, "contact")) then Some(fields["contact"]) else None
  }

  /** The six values of lines 82-87. */
  function NormalizeFields(fields: map<string, string>): (r: SchoolFields)
    ensures "email_id" !in fields ==> r.emailId == ""
    ensures r.contact.None? <==> RawField(fields, "contact") == ""
  {
    var contact := ContactField(fields);
    SchoolFields(
      TextField(fields, "name"), TextField(fields, "address"),
      TextField(fields, "city"), TextField(fields, "state"),
      contact, TextField(fields, "email_id"))
  }

  /** None of the five text values of a normalised submission begins or ends with whitespace. */
  lemma NormalizedTextTrimmed(fields: map<string, string>)
    ensures var r := NormalizeFields(fields);
            && !HasEdgeWhitespace(r.name) && !HasEdgeWhitespace(r.address)
            && !HasEdgeWhitespace(r.city) && !HasEdgeWhitespace(r.state)
            && !HasEdgeWhitespace(r.emailId)
  {
  }

  /** The required-field check of line 89: none of the four required values is empty after normalisation. */
  predicate HasRequiredFields(f: SchoolFields) {
    f.name != "" && f.address != "" && f.city != "" && f.state != ""
  }

  /** The field was sent with at least one character that is not whitespace. */
  predicate Provided(fields: map<string, string>, key: string) {
    key in fields && !AllWhitespace(fields[key])
  }

  /**
   * The required-field check: the normalised submission, or nothing (the 400 answer) when one
   * of `name`, `address`, `city`, `state` is missing or blank.
   */
  function ValidateSubmission(fields: map<string, string>): (r: Option<SchoolFields>)
    ensures r.Some? <==> AllRequiredProvided(fields)
    ensures r.Some? ==> r.value == NormalizeFields(fields)
  {
    RequiredCheckIff(fields);
    var f := NormalizeFields(fields);
    if HasRequiredFields(f) then Some(f) else None
  }

  /** The check on the normalised values is the check on the raw fields. */
  lemma RequiredCheckIff(fields: map<string, string>)
    ensures HasRequiredFields(NormalizeFields(fields)) <==> AllRequiredProvided(fields)
  {
    BlankIffNotProvided(fields, "name");
    BlankIffNotProvided(fields, "address");
    BlankIffNotProvided(fields, "city");
    BlankIffNotProvided(fields, "state");
  }

  /** Each of `name`, `address`, `city` and `state` was provided. */
  predicate AllRequiredProvided(fields: map<string, string>) {
    Provided(fields, "name") && Provided(fields, "address") && Provided(fields, "city") && Provided(fields, "state")
  }

  /** A text field trims to nothing exactly when it was not provided. */
  lemma BlankIffNotProvided(fields: map<string, string>, key: string)
    ensures TextField(fields, key) == "" <==> !Provided(fields, key)
  {
    TrimEmptyIff(RawField(fields, key));
  }

  /** Leaving out any one required field, or sending only whitespace in it, is refused. */
  lemma BlankRequiredFieldRefused(fields: map<string, string>, key: string)
    requires key in RequiredKeys && !Provided(fields, key)
    ensures ValidateSubmission(fields) == None
  {
    assert key == "name" || key == "address" || key == "city" || key == "state";
  }

  /** `contact` is not checked against a digit pattern: any non-empty text is kept. */
  lemma ContactKeptUnchecked(fields: map<string, string>)
    requires Truthy(Lookup(fields, "contact"))
    ensures NormalizeFields(fields).contact == Some(fields["contact"])
  {
  }
}
