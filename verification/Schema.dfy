// The result-schema dialect: which schemas a request may carry, and what
// content they let through. Python exceptions other than ValueError are
// crashes: nobody catches them.
module Schema {
  import opened Domain

  datatype Json = Null | Bool(b: bool) | Int(n: int) | Float(x: real) | Str(s: string)
                | List(items: seq<Json>) | Obj(fields: Fields)

  datatype Field = Field(key: string, value: Json)

  // A dict, in insertion order.
  type Fields = seq<Field>

  // What a Python value can be: no dict has a key twice.
  ghost predicate Proper(v: Json) {
    match v
    case List(xs) => forall i :: 0 <= i < |xs| ==> Proper(xs[i])
    case Obj(fs) => OnceEach(fs) && forall i :: 0 <= i < |fs| ==> Proper(fs[i].value)
    case _ => true
  }

  ghost predicate OnceEach(fs: Fields) {
    forall i, j :: 0 <= i < j < |fs| ==> fs[i].key != fs[j].key
  }

  // ---- Python's view of a value --------------------------------------------------------

  predicate Truthy(v: Json) {
    match v
    case Null => false
    case Bool(b) => b
    case Int(n) => n != 0
    case Float(x) => x != 0.0
    case Str(s) => s != ""
    case List(xs) => xs != []
    case Obj(fs) => fs != []
  }

  predicate Has(fs: Fields, key: string) {
    exists i :: 0 <= i < |fs| && fs[i].key == key
  }

  // dict.get(key)
  function Get(fs: Fields, key: string): Json {
    if fs == [] then Null
    else if fs[0].key == key then fs[0].value
    else Get(fs[1..], key)
  }

  predicate Hashable(v: Json) {
    !v.List? && !v.Obj?
  }

  // Iterating: characters, items or keys. None: TypeError.
  function Iter(v: Json): Option<seq<Json>> {
    match v
    case Str(s) => Some(seq(|s|, i requires 0 <= i < |s| => Str([s[i]])))
    case List(xs) => Some(xs)
    case Obj(fs) => Some(seq(|fs|, i requires 0 <= i < |fs| => Str(fs[i].key)))
    case _ => None
  }

  function Number(v: Json): Option<real> {
    match v
    case Bool(b) => Some(if b then 1.0 else 0.0)
    case Int(n) => Some(n as real)
    case Float(x) => Some(x)
    case _ => None
  }

  // ==: True == 1 == 1.0, also inside lists and dicts.
  predicate Same(a: Json, b: Json)
    decreases a
  {
    if Number(a).Some? || Number(b).Some? then Number(a) == Number(b)
    else match (a, b)
      case (List(xs), List(ys)) => |xs| == |ys| && forall i :: 0 <= i < |xs| ==> Same(xs[i], ys[i])
      case (Obj(fs), Obj(gs)) =>
        && |fs| == |gs|
        && forall i :: 0 <= i < |fs| ==> exists j :: 0 <= j < |gs| && gs[j].key == fs[i].key && Same(fs[i].value, gs[j].value)
      case _ => a == b
  }

  predicate InList(v: Json, xs: seq<Json>) {
    exists i :: 0 <= i < |xs| && Same(v, xs[i])
  }

  predicate Substring(s: string, t: string) {
    s <= t || (t != "" && Substring(s, t[1..]))
  }

  // `v in c` for a string v. None: TypeError.
  function In(v: string, c: Json): Option<bool> {
    match c
    case Str(t) => Some(Substring(v, t))
    case List(xs) => Some(InList(Str(v), xs))
    case Obj(fs) => Some(Has(fs, v))
    case _ => None
  }

  // ---- validate_request_schema -----------------------------------------------------------

  datatype Verdict = Ok | Refused | Crash

  predicate Primitive(t: Json) {
    t in {Str("string"), Str("number"), Str("integer"), Str("boolean")}
  }

  predicate IsBranch(b: Json) {
    b.Obj? && Has(b.fields, "const")
  }

  function Branches(v: Json): Verdict {
    var bs := Iter(v);
    if bs.None? then Crash
    else if forall i :: 0 <= i < |bs.value| ==> IsBranch(bs.value[i]) then Ok
    else Refused
  }

  function ValidateItems(items: Json): Verdict {
    if !items.Obj? then Refused
    else if Has(items.fields, "anyOf") then Branches(Get(items.fields, "anyOf"))
    else
      var t := Get(items.fields, "type");
      if t == Str("object") then Refused
      else if !Hashable(t) then Crash
      else if Primitive(t) then Ok
      else Refused
  }

  function ValidateProperty(prop: Json): Verdict {
    if !prop.Obj? then Refused
    else if Has(prop.fields, "oneOf") then Branches(Get(prop.fields, "oneOf"))
    else
      var t := Get(prop.fields, "type");
      if !Hashable(t) then Crash
      else if Primitive(t) then Ok
      else if t == Str("array") then ValidateItems(Get(prop.fields, "items"))
      else Refused
  }

  function ValidateProperties(props: Fields): Verdict {
    if props == [] then Ok
    else
      var v := ValidateProperty(props[0].value);
      if v == Ok then ValidateProperties(props[1..]) else v
  }

  function ValidateSchema(schema: Fields): Verdict {
    var props := Get(schema, "properties");
    if Get(schema, "type") != Str("object") then Refused
    else if props == Null then Ok
    else if !props.Obj? then Refused
    else ValidateProperties(props.fields)
  }

  // ---- validate_content ---------------------------------------------------------------------

  datatype Check = Fits | Mismatch | Unsupported | Broken

  // [b.get("const") for b in v]. None: TypeError or AttributeError.
  function Consts(v: Json): Option<seq<Json>> {
    var bs := Iter(v);
    if bs.None? || exists i :: 0 <= i < |bs.value| && !bs.value[i].Obj? then None
    else Some(seq(|bs.value|, i requires 0 <= i < |bs.value| && bs.value[i].Obj? => Get(bs.value[i].fields, "const")))
  }

  function CheckConst(v: Json, consts: Option<seq<Json>>): Check {
    if consts.None? then Broken else if InList(v, consts.value) then Fits else Mismatch
  }

  function CheckText(p: Fields, v: Json): Check {
    if !v.Str? then Mismatch
    else if !Has(p, "enum") then Fits
    else
      var found := In(v.s, Get(p, "enum"));
      if found.None? then Broken else if found.value then Fits else Mismatch
  }

  function When(b: bool): Check {
    if b then Fits else Mismatch
  }

  function CheckValue(p: Fields, v: Json): Check
    decreases v, 1
  {
    var t := Get(p, "type");
    if Has(p, "oneOf") then CheckConst(v, Consts(Get(p, "oneOf")))
    else if t == Str("string") then CheckText(p, v)
    else if t == Str("number") then When(v.Int? || v.Float?)
    else if t == Str("integer") then When(v.Int?)
    else if t == Str("boolean") then When(v.Bool?)
    else if t == Str("array") then
      if !v.List? then Mismatch
      else
        var items := Get(p, "items");
        if Truthy(items) && !items.Obj? then Broken
        else
          var q := if Truthy(items) then items.fields else [];
          if Has(q, "anyOf") then CheckConsts(v.items, Consts(Get(q, "anyOf")))
          else CheckItems(q, v.items)
    else Unsupported
  }

  function CheckConsts(vs: seq<Json>, consts: Option<seq<Json>>): Check {
    if consts.None? then Broken
    else if forall i :: 0 <= i < |vs| ==> InList(vs[i], consts.value) then Fits
    else Mismatch
  }

  // Item by item; the first that does not fit decides.
  function CheckItems(q: Fields, vs: seq<Json>): Check
    decreases vs, 0
  {
    if vs == [] then Fits
    else
      var c := CheckValue(q, vs[0]);
      if c == Fits then CheckItems(q, vs[1..]) else c
  }

  function CheckFields(props: Fields, content: Fields): Check {
    if content == [] then Fits
    else
      var key, prop := content[0].key, Get(props, content[0].key);
      if !Has(props, key) then CheckFields(props, content[1..])
      else if !prop.Obj? then Broken
      else
        var c := CheckValue(prop.fields, content[0].value);
        if c == Fits then CheckFields(props, content[1..]) else c
  }

  function CheckRequired(required: seq<Json>, content: Fields): Check {
    if required == [] then Fits
    else if !Hashable(required[0]) then Broken
    else if !(required[0].Str? && Has(content, required[0].s)) then Mismatch
    else CheckRequired(required[1..], content)
  }

  // `content` is a dict or something else; strings never get here.
  function ValidateContent(schema: Fields, content: Json): Check {
    if Get(schema, "type") != Str("object") || !content.Obj? then Mismatch
    else
      var props, required := Get(schema, "properties"), Get(schema, "required");
      var names := if Truthy(required) then Iter(required) else Some([]);
      if names.None? then Broken
      else
        var c := CheckRequired(names.value, content.fields);
        if c != Fits then c
        else if !Truthy(props) then CheckFields([], content.fields)
        else if !props.Obj? then (if content.fields == [] then Fits else Broken)
        else CheckFields(props.fields, content.fields)
  }

  // ---- which schemas are accepted --------------------------------------------------------

  ghost predicate ConstBranches(v: Json) {
    Iter(v).Some? && forall b :: b in Iter(v).value ==> b.Obj? && exists f :: f in b.fields && f.key == "const"
  }

  // A choice of constants, a primitive, or a list of either.
  ghost predicate InDialect(prop: Json) {
    && prop.Obj?
    && if Has(prop.fields, "oneOf") then ConstBranches(Get(prop.fields, "oneOf"))
       else
         || Get(prop.fields, "type") in {Str("string"), Str("number"), Str("integer"), Str("boolean")}
         || (Get(prop.fields, "type") == Str("array") && ItemsInDialect(Get(prop.fields, "items")))
  }

  ghost predicate ItemsInDialect(items: Json) {
    && items.Obj?
    && if Has(items.fields, "anyOf") then ConstBranches(Get(items.fields, "anyOf"))
       else Get(items.fields, "type") in {Str("string"), Str("number"), Str("integer"), Str("boolean")}
  }

  lemma BranchesAccepted(v: Json)
    ensures Branches(v) == Ok <==> ConstBranches(v)
  {
    if Iter(v).Some? {
      forall i | 0 <= i < |Iter(v).value|
        ensures IsBranch(Iter(v).value[i]) <==>
          var b := Iter(v).value[i]; b.Obj? && exists f :: f in b.fields && f.key == "const"
      {
        var b := Iter(v).value[i];
        if b.Obj? && exists f :: f in b.fields && f.key == "const" {
          var f :| f in b.fields && f.key == "const";
          var j :| 0 <= j < |b.fields| && b.fields[j] == f;
        }
      }
    }
  }

  lemma PropertyDialect(prop: Json)
    ensures ValidateProperty(prop) == Ok <==> InDialect(prop)
  {
    if prop.Obj? {
      BranchesAccepted(Get(prop.fields, "oneOf"));
      var items := Get(prop.fields, "items");
      if items.Obj? {
        BranchesAccepted(Get(items.fields, "anyOf"));
      }
    }
  }

  lemma {:induction false} PropertiesDialect(props: Fields)
    ensures ValidateProperties(props) == Ok <==> forall i :: 0 <= i < |props| ==> InDialect(props[i].value)
  {
    if props != [] {
      PropertyDialect(props[0].value);
      PropertiesDialect(props[1..]);
      assert forall i :: 1 <= i < |props| ==> props[i] == props[1..][i - 1];
    }
  }

  // A request may carry exactly the flat object schemas of the dialect: nested
  // objects and lists of objects are out.
  lemma AcceptedExactlyWhen(schema: Fields)
    ensures ValidateSchema(schema) == Ok <==>
      && Get(schema, "type") == Str("object")
      && (Get(schema, "properties").Null? || Get(schema, "properties").Obj?)
      && forall i :: 0 <= i < |PropertiesOf(schema)| ==> InDialect(PropertiesOf(schema)[i].value)
  {
    PropertiesDialect(PropertiesOf(schema));
  }

  // ---- accepted schemas are understood ---------------------------------------------------

  lemma BranchesHaveConsts(v: Json)
    requires Branches(v) == Ok
    ensures Consts(v).Some?
  {
    assert forall i :: 0 <= i < |Iter(v).value| ==> IsBranch(Iter(v).value[i]);
  }

  lemma {:induction false} ItemsKnown(items: Json, vs: seq<Json>)
    requires ValidateItems(items) == Ok && !Has(items.fields, "anyOf")
    ensures CheckItems(items.fields, vs) != Unsupported
  {
    if vs != [] {
      ItemsKnown(items, vs[1..]);
    }
  }

  lemma Known(prop: Json, v: Json)
    requires ValidateProperty(prop) == Ok
    ensures CheckValue(prop.fields, v) != Unsupported
  {
    var items := Get(prop.fields, "items");
    if ValidateItems(items) == Ok && !Has(items.fields, "anyOf") && v.List? {
      ItemsKnown(items, v.items);
    }
  }

  lemma {:induction false} PropertyAccepted(props: Fields, key: string)
    requires ValidateProperties(props) == Ok && Has(props, key)
    ensures ValidateProperty(Get(props, key)) == Ok
  {
    if props[0].key != key {
      var i :| 0 <= i < |props| && props[i].key == key;
      assert props[1..][i - 1] == props[i];
      PropertyAccepted(props[1..], key);
    }
  }

  lemma {:induction false} FieldsKnown(props: Fields, content: Fields)
    requires ValidateProperties(props) == Ok
    ensures CheckFields(props, content) != Unsupported
  {
    if content != [] {
      FieldsKnown(props, content[1..]);
      if Has(props, content[0].key) {
        PropertyAccepted(props, content[0].key);
        Known(Get(props, content[0].key), content[0].value);
      }
    }
  }

  // The properties of an accepted schema: a dict, possibly empty.
  function PropertiesOf(schema: Fields): Fields {
    var props := Get(schema, "properties");
    if props.Obj? then props.fields else []
  }

  lemma PropertiesAccepted(schema: Fields)
    requires ValidateSchema(schema) == Ok
    ensures ValidateProperties(PropertiesOf(schema)) == Ok
  {
  }

  // An accepted schema never meets a type the content check does not know.
  lemma NeverUnsupported(schema: Fields, content: Json)
    requires ValidateSchema(schema) == Ok
    ensures ValidateContent(schema, content) != Unsupported
  {
    PropertiesAccepted(schema);
    if content.Obj? {
      FieldsKnown(PropertiesOf(schema), content.fields);
      var required := Get(schema, "required");
      var names := if Truthy(required) then Iter(required) else Some([]);
      if names.Some? {
        RequiredKnown(names.value, content.fields);
      }
    }
  }

  lemma {:induction false} RequiredKnown(required: seq<Json>, content: Fields)
    ensures CheckRequired(required, content) != Unsupported
    ensures CheckRequired(required, content) == Fits <==>
      forall i :: 0 <= i < |required| ==> required[i].Str? && Has(content, required[i].s)
  {
    if required != [] {
      RequiredKnown(required[1..], content);
      assert forall i :: 1 <= i < |required| ==> required[i] == required[1..][i - 1];
    }
  }

  // ---- what passes ------------------------------------------------------------------------

  // v equals the const of one of the branches.
  ghost predicate OneOf(v: Json, branches: Json) {
    && Iter(branches).Some?
    && exists i :: 0 <= i < |Iter(branches).value| && IsObj(Iter(branches).value[i]) && Same(v, ConstOf(Iter(branches).value[i]))
  }

  predicate IsObj(b: Json) {
    b.Obj?
  }

  function ConstOf(b: Json): Json {
    if b.Obj? then Get(b.fields, "const") else Null
  }

  ghost predicate SuitsScalar(p: Fields, v: Json) {
    match v
    case Str(s) => Get(p, "type") == Str("string") && (Has(p, "enum") ==> In(s, Get(p, "enum")) == Some(true))
    case Int(_) => Get(p, "type") in {Str("number"), Str("integer")}
    case Float(_) => Get(p, "type") == Str("number")
    case Bool(_) => Get(p, "type") == Str("boolean")
    case _ => false
  }

  ghost predicate SuitsItem(q: Fields, v: Json) {
    if Has(q, "oneOf") then Consts(Get(q, "oneOf")).Some? && OneOf(v, Get(q, "oneOf"))
    else SuitsScalar(q, v)
  }

  // What an accepted property lets through.
  ghost predicate Suits(p: Fields, v: Json) {
    if Has(p, "oneOf") then OneOf(v, Get(p, "oneOf"))
    else if !v.List? then SuitsScalar(p, v)
    else
      var items := Get(p, "items");
      && Get(p, "type") == Str("array") && items.Obj?
      && forall i :: 0 <= i < |v.items| ==>
        if Has(items.fields, "anyOf") then OneOf(v.items[i], Get(items.fields, "anyOf"))
        else SuitsItem(items.fields, v.items[i])
  }

  ghost predicate Conforms(schema: Fields, content: Json) {
    var required, props := Get(schema, "required"), PropertiesOf(schema);
    && content.Obj?
    && (Truthy(required) ==>
      && Iter(required).Some?
      && forall i :: 0 <= i < |Iter(required).value| ==>
        Iter(required).value[i].Str? && Has(content.fields, Iter(required).value[i].s))
    && forall i :: 0 <= i < |content.fields| && Has(props, content.fields[i].key) ==>
      var prop := Get(props, content.fields[i].key);
      prop.Obj? && Suits(prop.fields, content.fields[i].value)
  }

  lemma ConstsAre(v: Json, branches: Json)
    requires Consts(branches).Some?
    ensures InList(v, Consts(branches).value) <==> OneOf(v, branches)
  {
    var bs, cs := Iter(branches).value, Consts(branches).value;
    assert forall i :: 0 <= i < |bs| ==> IsObj(bs[i]) && cs[i] == ConstOf(bs[i]);
  }

  lemma ItemSuits(items: Json, v: Json)
    requires ValidateItems(items) == Ok && !Has(items.fields, "anyOf")
    ensures CheckValue(items.fields, v) == Fits <==> SuitsItem(items.fields, v)
  {
    var q := items.fields;
    if Has(q, "oneOf") && Consts(Get(q, "oneOf")).Some? {
      ConstsAre(v, Get(q, "oneOf"));
    }
  }

  lemma {:induction false} ItemsSuit(items: Json, vs: seq<Json>)
    requires ValidateItems(items) == Ok && !Has(items.fields, "anyOf")
    ensures CheckItems(items.fields, vs) == Fits <==> forall i :: 0 <= i < |vs| ==> SuitsItem(items.fields, vs[i])
  {
    if vs != [] {
      ItemSuits(items, vs[0]);
      ItemsSuit(items, vs[1..]);
      assert forall i :: 1 <= i < |vs| ==> vs[i] == vs[1..][i - 1];
    }
  }

  lemma ValueSuits(prop: Json, v: Json)
    requires ValidateProperty(prop) == Ok
    ensures CheckValue(prop.fields, v) == Fits <==> Suits(prop.fields, v)
  {
    var p, items := prop.fields, Get(prop.fields, "items");
    if Has(p, "oneOf") {
      BranchesHaveConsts(Get(p, "oneOf"));
      ConstsAre(v, Get(p, "oneOf"));
    } else if Get(p, "type") == Str("array") && v.List? {
      if Has(items.fields, "anyOf") {
        BranchesHaveConsts(Get(items.fields, "anyOf"));
        forall i | 0 <= i < |v.items|
          ensures InList(v.items[i], Consts(Get(items.fields, "anyOf")).value) <==> OneOf(v.items[i], Get(items.fields, "anyOf"))
        {
          ConstsAre(v.items[i], Get(items.fields, "anyOf"));
        }
      } else {
        ItemsSuit(items, v.items);
      }
    }
  }

  lemma {:induction false} FieldsSuit(props: Fields, content: Fields)
    requires ValidateProperties(props) == Ok
    ensures CheckFields(props, content) == Fits <==>
      forall i :: 0 <= i < |content| && Has(props, content[i].key) ==>
        Get(props, content[i].key).Obj? && Suits(Get(props, content[i].key).fields, content[i].value)
  {
    if content != [] {
      FieldsSuit(props, content[1..]);
      assert forall i :: 1 <= i < |content| ==> content[i] == content[1..][i - 1];
      if Has(props, content[0].key) {
        PropertyAccepted(props, content[0].key);
        ValueSuits(Get(props, content[0].key), content[0].value);
      }
    }
  }

  // The step-by-step check accepts exactly the content that conforms.
  lemma ContentConforms(schema: Fields, content: Json)
    requires ValidateSchema(schema) == Ok
    ensures ValidateContent(schema, content) == Fits <==> Conforms(schema, content)
  {
    PropertiesAccepted(schema);
    if content.Obj? {
      FieldsSuit(PropertiesOf(schema), content.fields);
      var required := Get(schema, "required");
      var names := if Truthy(required) then Iter(required) else Some([]);
      if names.Some? {
        RequiredKnown(names.value, content.fields);
      }
    }
  }

  // ---- what crashes -------------------------------------------------------------------------

  // An enum that `in` cannot search.
  predicate BadEnum(p: Fields) {
    Get(p, "type") == Str("string") && Has(p, "enum") && In("", Get(p, "enum")) == None
  }

  // The branches of an item's oneOf are not looked at when the schema is accepted.
  predicate BadItems(items: Json) {
    && items.Obj? && !Has(items.fields, "anyOf")
    && if Has(items.fields, "oneOf") then Consts(Get(items.fields, "oneOf")) == None else BadEnum(items.fields)
  }

  predicate BadProperty(prop: Json) {
    && prop.Obj? && !Has(prop.fields, "oneOf")
    && (BadEnum(prop.fields) || (Get(prop.fields, "type") == Str("array") && BadItems(Get(prop.fields, "items"))))
  }

  // `required`: a name that is no string stops the check, or crashes it if it
  // cannot be hashed.
  predicate BadName(names: seq<Json>) {
    names != [] && (!Hashable(names[0]) || (names[0].Str? && BadName(names[1..])))
  }

  predicate AllNames(names: seq<Json>) {
    forall i :: 0 <= i < |names| ==> names[i].Str?
  }

  // Nothing of this is looked at by ValidateSchema.
  ghost predicate CanCrash(schema: Fields) {
    var required := Get(schema, "required");
    var names := if Truthy(required) then Iter(required) else Some([]);
    || names.None?
    || BadName(names.value)
    || (AllNames(names.value) && exists key :: BadKey(PropertiesOf(schema), key))
  }

  predicate BadKey(props: Fields, key: string) {
    Has(props, key) && BadProperty(Get(props, key))
  }

  lemma EnumCrashes(p: Fields, v: Json)
    ensures CheckText(p, v) == Broken ==> Has(p, "enum") && In("", Get(p, "enum")) == None
    ensures BadEnum(p) ==> CheckText(p, Str("")) == Broken
  {
  }

  lemma ItemCrashes(items: Json, v: Json)
    requires ValidateItems(items) == Ok && !Has(items.fields, "anyOf")
    ensures CheckValue(items.fields, v) == Broken ==> BadItems(items)
    ensures BadItems(items) ==> CheckValue(items.fields, Str("")) == Broken
  {
    EnumCrashes(items.fields, v);
    EnumCrashes(items.fields, Str(""));
  }

  lemma {:induction false} ItemsCrash(items: Json, vs: seq<Json>)
    requires ValidateItems(items) == Ok && !Has(items.fields, "anyOf")
    ensures CheckItems(items.fields, vs) == Broken ==> BadItems(items)
    ensures BadItems(items) ==> CheckItems(items.fields, [Str("")]) == Broken
  {
    ItemCrashes(items, Str(""));
    if vs != [] {
      ItemCrashes(items, vs[0]);
      ItemsCrash(items, vs[1..]);
    }
  }

  // A value that crashes the check of a bad property.
  function Poison(prop: Json): Json {
    if prop.Obj? && Get(prop.fields, "type") == Str("array") then List([Str("")]) else Str("")
  }

  lemma ValueCrashes(prop: Json, v: Json)
    requires ValidateProperty(prop) == Ok
    ensures CheckValue(prop.fields, v) == Broken ==> BadProperty(prop)
    ensures BadProperty(prop) ==> CheckValue(prop.fields, Poison(prop)) == Broken
  {
    var p, items := prop.fields, Get(prop.fields, "items");
    EnumCrashes(p, v);
    if Has(p, "oneOf") {
      BranchesHaveConsts(Get(p, "oneOf"));
    } else if Get(p, "type") == Str("array") {
      if Has(items.fields, "anyOf") {
        BranchesHaveConsts(Get(items.fields, "anyOf"));
      } else {
        ItemsCrash(items, if v.List? then v.items else []);
      }
    }
  }

  lemma {:induction false} FieldsCrash(props: Fields, content: Fields)
    requires ValidateProperties(props) == Ok && CheckFields(props, content) == Broken
    ensures exists key :: BadKey(props, key)
  {
    var key := content[0].key;
    if Has(props, key) {
      PropertyAccepted(props, key);
      ValueCrashes(Get(props, key), content[0].value);
    }
    if !BadKey(props, key) {
      FieldsCrash(props, content[1..]);
    }
  }

  lemma {:induction false} NamesCrash(names: seq<Json>, content: Fields)
    requires CheckRequired(names, content) == Broken
    ensures BadName(names)
  {
    if Hashable(names[0]) {
      NamesCrash(names[1..], content);
    }
  }

  // Fields for the names asked for that are not in `had`.
  function Given(names: seq<Json>, had: set<string>): Fields {
    if names == [] then []
    else if names[0].Str? && names[0].s !in had then
      [Field(names[0].s, Null)] + Given(names[1..], had + {names[0].s})
    else Given(names[1..], had)
  }

  lemma {:induction false} GivenHas(names: seq<Json>, had: set<string>, i: nat)
    requires i < |names| && names[i].Str? && names[i].s !in had
    ensures Has(Given(names, had), names[i].s)
  {
    if names[0].Str? && names[0].s !in had {
      var rest := Given(names[1..], had + {names[0].s});
      assert Given(names, had)[0].key == names[0].s;
      if names[i].s != names[0].s {
        GivenHas(names[1..], had + {names[0].s}, i - 1);
        var j :| 0 <= j < |rest| && rest[j].key == names[i].s;
        assert Given(names, had)[1 + j] == rest[j];
      }
    } else {
      GivenHas(names[1..], had, i - 1);
    }
  }

  lemma {:induction false} GivenProper(names: seq<Json>, had: set<string>)
    ensures var fs := Given(names, had);
      && Proper(Obj(fs))
      && forall i :: 0 <= i < |fs| ==> fs[i].key !in had
  {
    if names != [] {
      if names[0].Str? && names[0].s !in had {
        GivenProper(names[1..], had + {names[0].s});
      } else {
        GivenProper(names[1..], had);
      }
    }
  }

  lemma {:induction false} RequiredOn(names: seq<Json>, content: Fields)
    requires forall i :: 0 <= i < |names| && names[i].Str? ==> Has(content, names[i].s)
    ensures BadName(names) ==> CheckRequired(names, content) == Broken
    ensures AllNames(names) ==> CheckRequired(names, content) == Fits
  {
    if names != [] {
      assert forall i :: 0 <= i < |names[1..]| ==> names[1..][i] == names[i + 1];
      RequiredOn(names[1..], content);
    }
  }

  // Some result crashes the content check of an accepted schema, so that the
  // invocation never ends, exactly when the schema can crash.
  lemma CrashesExactlyWhen(schema: Fields)
    requires ValidateSchema(schema) == Ok
    ensures CanCrash(schema) <==> exists content :: Proper(content) && ValidateContent(schema, content) == Broken
  {
    if CanCrash(schema) {
      var content := Crasher(schema);
      assert Proper(content) && ValidateContent(schema, content) == Broken;
    }
    if content :| Proper(content) && ValidateContent(schema, content) == Broken {
      CrashMeans(schema, content);
    }
  }

  lemma CrashMeans(schema: Fields, content: Json)
    requires ValidateSchema(schema) == Ok && ValidateContent(schema, content) == Broken
    ensures CanCrash(schema)
  {
    var required := Get(schema, "required");
    var names := if Truthy(required) then Iter(required) else Some([]);
    PropertiesAccepted(schema);
    if names.Some? {
      if CheckRequired(names.value, content.fields) == Broken {
        NamesCrash(names.value, content.fields);
      } else {
        RequiredKnown(names.value, content.fields);
        FieldsCrash(PropertiesOf(schema), content.fields);
      }
    }
  }

  lemma Crasher(schema: Fields) returns (content: Json)
    requires ValidateSchema(schema) == Ok && CanCrash(schema)
    ensures Proper(content) && ValidateContent(schema, content) == Broken
  {
    var required := Get(schema, "required");
    var names := if Truthy(required) then Iter(required) else Some([]);
    if names.None? {
      content := Obj([]);
    } else if BadName(names.value) {
      content := NamesPoisoned(names.value);
    } else {
      PropertiesAccepted(schema);
      content := PoisonedContent(PropertiesOf(schema), names.value);
    }
  }

  lemma NamesPoisoned(names: seq<Json>) returns (content: Json)
    requires BadName(names)
    ensures Proper(content) && content.Obj? && CheckRequired(names, content.fields) == Broken
  {
    var given := Given(names, {});
    content := Obj(given);
    GivenProper(names, {});
    forall i | 0 <= i < |names| && names[i].Str?
      ensures Has(given, names[i].s)
    {
      GivenHas(names, {}, i);
    }
    RequiredOn(names, given);
  }

  // A bad property first, then everything else required.
  lemma PoisonedContent(props: Fields, names: seq<Json>) returns (content: Json)
    requires ValidateProperties(props) == Ok && AllNames(names) && exists key :: BadKey(props, key)
    ensures Proper(content) && content.Obj?
    ensures CheckRequired(names, content.fields) == Fits && CheckFields(props, content.fields) == Broken
  {
    var key :| BadKey(props, key);
    PropertyAccepted(props, key);
    var first, given := Field(key, Poison(Get(props, key))), Given(names, {key});
    ValueCrashes(Get(props, key), first.value);
    GivenProper(names, {key});
    forall i | 0 <= i < |names| && names[i].Str?
      ensures Has([first] + given, names[i].s)
    {
      GivenBehind(names, first, i);
    }
    RequiredOn(names, [first] + given);
    content := Obj([first] + given);
  }

  lemma GivenBehind(names: seq<Json>, first: Field, i: nat)
    requires i < |names| && names[i].Str?
    ensures Has([first] + Given(names, {first.key}), names[i].s)
  {
    var given := Given(names, {first.key});
    if names[i].s == first.key {
      assert ([first] + given)[0].key == names[i].s;
    } else {
      GivenHas(names, {first.key}, i);
      var j :| 0 <= j < |given| && given[j].key == names[i].s;
      assert ([first] + given)[1 + j] == given[j];
    }
  }
}
