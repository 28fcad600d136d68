/** The field-selection rule of the `ClientBuilder` derive macro,
    sdk/core_macros/src/lib.rs: which field of the builder struct the
    generated `options()` returns, or which compile error is reported. The
    struct is given as its list of fields; token generation is not part of
    this model. */
module ClientBuilderDerive {
  import opened Wrappers

  /** An attribute on a field: its path and whether it carries arguments
      (`#[options(...)]` or `#[options = ...]` rather than `#[options]`). */
  datatype Attr = Attr(path: string, hasArgs: bool)

  /** A field: its identifier (absent for tuple fields) and attributes. */
  datatype Field = Field(ident: Option<string>, attrs: seq<Attr>)

  /** `syn::Fields`. */
  datatype Fields = Named(named: seq<Field>) | Unnamed(unnamed: seq<Field>) | Unit

  const NoArgumentsMessage: string := "`options` accepts no arguments"
  const NoOptionsFieldMessage: string := "no field named `options` or attributed with `#[options]`"
  const NotNamedMessage: string := "ClientBuilder valid only on struct with named fields"

  /** The first attribute whose path is `options`, if any. */
  function FindOptionsAttr(attrs: seq<Attr>): (r: Option<Attr>)
    ensures r.None? <==> forall k :: 0 <= k < |attrs| ==> attrs[k].path != "options"
    ensures r.Some? ==> r.value.path == "options" && r.value in attrs
    ensures r.Some? ==>
      exists j :: 0 <= j < |attrs| && attrs[j] == r.value && forall k :: 0 <= k < j ==> attrs[k].path != "options"
  {
    if attrs == [] then None
    else if attrs[0].path == "options" then Some(attrs[0])
    else FindOptionsAttr(attrs[1..])
  }

  /** A field carries an `options` attribute. */
  predicate IsAttributed(f: Field) {
    FindOptionsAttr(f.attrs).Some?
  }

  /** The index of the first attributed field, if any. */
  function FirstAttributed(fields: seq<Field>): (r: Option<nat>)
    ensures r.None? <==> forall k :: 0 <= k < |fields| ==> !IsAttributed(fields[k])
    ensures r.Some? ==> r.value < |fields| && IsAttributed(fields[r.value])
    ensures r.Some? ==> forall k :: 0 <= k < r.value ==> !IsAttributed(fields[k])
  {
    if fields == [] then None
    else if IsAttributed(fields[0]) then Some(0)
    else
      match FirstAttributed(fields[1..])
      case None => None
      case Some(i) => Some(i + 1)
  }

  /** Some field is named `options`. */
  predicate HasFieldNamedOptions(fields: seq<Field>) {
    exists k :: 0 <= k < |fields| && fields[k].ident == Some("options")
  }

  /** What the derive yields: `Ok` with the field `options()` returns, or
      `Err` with the compile-error message. */
  function Selected(fields: Fields): Result<string, string> {
    match fields
    case Named(fs) =>
      (match FirstAttributed(fs)
       case Some(i) =>
         if FindOptionsAttr(fs[i].attrs).value.hasArgs then Err(NoArgumentsMessage)
         else if fs[i].ident.None? then Err(NoOptionsFieldMessage)
         else Ok(fs[i].ident.value)
       case None =>
         if HasFieldNamedOptions(fs) then Ok("options") else Err(NoOptionsFieldMessage))
    case _ => Err(NotNamedMessage)
  }

  /** `client_builder_derive`, up to token generation: scans the fields in
      order, stopping at the first attributed one, and otherwise remembers a
      field named `options`. */
  method Derive(fields: Fields) returns (r: Result<string, string>)
    ensures r == Selected(fields)
  {
    var fieldName: Option<string> := None;
    if fields.Named? {
      var fs := fields.named;
      for i := 0 to |fs|
        invariant forall k :: 0 <= k < i ==> !IsAttributed(fs[k])
        invariant fieldName.None? <==> !HasFieldNamedOptions(fs[..i])
        invariant fieldName.Some? ==> fieldName.value == "options"
      {
        var field := fs[i];
        var attr := FindOptionsAttr(field.attrs);
        if attr.Some? {
          if attr.value.hasArgs {
            return Err(NoArgumentsMessage);
          }
          fieldName := field.ident;
          break;
        }
        if field.ident == Some("options") {
          fieldName := field.ident;
        }
        assert fs[..i + 1] == fs[..i] + [field];
        if HasFieldNamedOptions(fs[..i + 1]) && field.ident != Some("options") {
          var k :| 0 <= k < i + 1 && fs[..i + 1][k].ident == Some("options");
          assert fs[..i][k].ident == Some("options");
        }
      }
      if fieldName.None? {
        return Err(NoOptionsFieldMessage);
      }
    } else {
      return Err(NotNamedMessage);
    }
    r := Ok(fieldName.value);
  }

  /** An attributed field wins over any field named `options`, even one
      that comes first: the first attributed field is selected, or its
      arguments are refused. */
  lemma AttributedFieldWins(fs: seq<Field>, i: nat, name: string)
    requires i < |fs| && IsAttributed(fs[i]) && fs[i].ident == Some(name)
    requires forall k :: 0 <= k < i ==> !IsAttributed(fs[k])
    ensures FindOptionsAttr(fs[i].attrs).value.hasArgs ==> Selected(Named(fs)) == Err(NoArgumentsMessage)
    ensures !FindOptionsAttr(fs[i].attrs).value.hasArgs ==> Selected(Named(fs)) == Ok(name)
  {
  }

  /** Without any attributed field the field named `options` is selected,
      and without that either the derive fails. */
  lemma NamedFieldFallback(fs: seq<Field>)
    requires forall k :: 0 <= k < |fs| ==> !IsAttributed(fs[k])
    ensures HasFieldNamedOptions(fs) ==> Selected(Named(fs)) == Ok("options")
    ensures !HasFieldNamedOptions(fs) ==> Selected(Named(fs)) == Err(NoOptionsFieldMessage)
  {
  }

  /** The derive succeeds only on a struct with named fields, and what it
      selects is a field of that struct carrying the `options` attribute or
      the `options` name. */
  lemma SelectedIsAField(fields: Fields)
    ensures !fields.Named? ==> Selected(fields) == Err(NotNamedMessage)
    ensures Selected(fields).Ok? ==>
      exists k :: 0 <= k < |fields.named| && fields.named[k].ident == Some(Selected(fields).value)
               && (IsAttributed(fields.named[k]) || Selected(fields).value == "options")
  {
    if Selected(fields).Ok? {
      var fs := fields.named;
      match FirstAttributed(fs)
      case Some(i) =>
        assert fs[i].ident == Some(Selected(fields).value);
      case None =>
    }
  }
}
