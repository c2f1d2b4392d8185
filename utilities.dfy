/** Splitting of reference paths, look-ups in the application description, and the
    rules that turn a component's constructor parameters into arguments. */
module FrameworkUtilities {
  import opened DynrecTypes

  // ---------------------------------------------------------------------------
  // `String.split` on a one-character separator
  // ---------------------------------------------------------------------------

  /** All the pieces of `s` between separators, empty ones included: one more piece
      than there are separators. */
  function Fields(s: string, sep: char): (r: seq<string>)
    ensures |r| >= 1
    ensures forall i :: 0 <= i < |r| ==> sep !in r[i]
    decreases |s|
  {
    if s == [] then [[]]
    else
      var rest := Fields(s[1..], sep);
      if s[0] == sep then [[]] + rest
      else [[s[0]] + rest[0]] + rest[1..]
  }

  /** The pieces put back together, a separator between each two. */
  function Join(parts: seq<string>, sep: char): string
    decreases |parts|
  {
    if parts == [] then []
    else if |parts| == 1 then parts[0]
    else parts[0] + [sep] + Join(parts[1..], sep)
  }

  /** The pieces with every trailing empty one removed. */
  function DropTrailingEmpty(parts: seq<string>): (r: seq<string>)
    ensures |r| <= |parts| && r == parts[..|r|]
    ensures r == [] || r[|r| - 1] != []
    ensures forall i :: |r| <= i < |parts| ==> parts[i] == []
    decreases |parts|
  {
    if parts != [] && parts[|parts| - 1] == [] then DropTrailingEmpty(parts[..|parts| - 1]) else parts
  }

  /** `s.split(sep)` in Java: a string without the separator is its own only piece;
      otherwise the pieces, without the trailing empty ones. */
  function JavaSplit(s: string, sep: char): (r: seq<string>)
    ensures forall i :: 0 <= i < |r| ==> sep !in r[i]
    ensures sep !in s ==> r == [s]
    ensures sep in s ==> r == [] || r[|r| - 1] != []
  {
    if sep !in s then [s] else DropTrailingEmpty(Fields(s, sep))
  }

  /** Splitting loses nothing: the pieces joined again give back the string. */
  lemma {:induction false} JoinFields(s: string, sep: char)
    ensures Join(Fields(s, sep), sep) == s
    decreases |s|
  {
    if s != [] {
      var rest := Fields(s[1..], sep);
      JoinFields(s[1..], sep);
      if s[0] == sep {
        assert ([[]] + rest)[1..] == rest;
      } else if |rest| > 1 {
        assert ([[s[0]] + rest[0]] + rest[1..])[1..] == rest[1..];
        assert Join(rest, sep) == rest[0] + [sep] + Join(rest[1..], sep);
        assert s == [s[0]] + s[1..];
      } else {
        assert s == [s[0]] + s[1..];
      }
    }
  }

  lemma {:induction false} FieldsWithoutSeparator(a: string, sep: char)
    requires sep !in a
    ensures Fields(a, sep) == [a]
    decreases |a|
  {
    if a != [] {
      FieldsWithoutSeparator(a[1..], sep);
      assert a == [a[0]] + a[1..];
    }
  }

  lemma {:induction false} FieldsAfterPiece(a: string, rest: string, sep: char)
    requires sep !in a
    ensures Fields(a + [sep] + rest, sep) == [a] + Fields(rest, sep)
    decreases |a|
  {
    if a == [] {
      assert ([sep] + rest)[1..] == rest;
      assert [] + [sep] + rest == [sep] + rest;
    } else {
      assert (a + [sep] + rest)[1..] == a[1..] + [sep] + rest;
      FieldsAfterPiece(a[1..], rest, sep);
      assert a == [a[0]] + a[1..];
    }
  }

  /** Joining pieces that hold no separator and splitting into fields gives them back. */
  lemma {:induction false} FieldsOfJoin(parts: seq<string>, sep: char)
    requires |parts| >= 1
    requires forall i :: 0 <= i < |parts| ==> sep !in parts[i]
    ensures Fields(Join(parts, sep), sep) == parts
    decreases |parts|
  {
    if |parts| == 1 {
      FieldsWithoutSeparator(parts[0], sep);
    } else {
      FieldsOfJoin(parts[1..], sep);
      FieldsAfterPiece(parts[0], Join(parts[1..], sep), sep);
      assert parts == [parts[0]] + parts[1..];
    }
  }

  /** `JavaSplit` undoes `Join` when no piece holds the separator and the last piece is
      not empty (or is the only one). */
  lemma SplitOfJoin(parts: seq<string>, sep: char)
    requires |parts| >= 1
    requires forall i :: 0 <= i < |parts| ==> sep !in parts[i]
    requires |parts| == 1 || parts[|parts| - 1] != []
    ensures JavaSplit(Join(parts, sep), sep) == parts
  {
    if |parts| > 1 {
      var s := Join(parts, sep);
      assert s == parts[0] + [sep] + Join(parts[1..], sep);
      assert s[|parts[0]|] == sep;
      FieldsOfJoin(parts, sep);
    }
  }

  /** A reference `a/b` splits into its two names, provided neither holds a '/' and the
      second is not empty ("a/" has only one piece). */
  lemma SplitPath(a: string, b: string)
    requires '/' !in a && '/' !in b && b != []
    ensures JavaSplit(a + "/" + b, '/') == [a, b]
  {
    assert Join([a, b], '/') == a + "/" + b by {
      assert [a, b][1..] == [b];
    }
    SplitOfJoin([a, b], '/');
  }

  /** A trailing separator is dropped: "a/b/" has the two pieces of "a/b". */
  lemma TrailingSeparatorSplit()
    ensures JavaSplit("a/b/", '/') == ["a", "b"]
  {
    assert Join(["b", ""], '/') == "b/" by { assert ["b", ""][1..] == [""]; }
    assert Join(["a", "b", ""], '/') == "a/b/" by { assert ["a", "b", ""][1..] == ["b", ""]; }
    FieldsOfJoin(["a", "b", ""], '/');
    assert "a/b/"[1] == '/';
    assert DropTrailingEmpty(["a", "b", ""]) == ["a", "b"] by {
      assert ["a", "b", ""][..2] == ["a", "b"];
    }
  }

  /** A lone separator has no pieces at all: both of its pieces are empty and trailing. */
  lemma LoneSeparatorSplit()
    ensures JavaSplit("/", '/') == []
  {
    assert Join(["", ""], '/') == "/" by { assert ["", ""][1..] == [""]; }
    FieldsOfJoin(["", ""], '/');
    assert "/"[0] == '/';
    assert DropTrailingEmpty(["", ""]) == [] by {
      assert ["", ""][..1] == [""];
      assert [""][..0] == [];
    }
  }

  /** How Java treats a leading and a repeated separator, and a string without one;
      trailing separators are the two lemmas above. */
  lemma SplitExamples()
    ensures JavaSplit("/b", '/') == ["", "b"]
    ensures JavaSplit("a//b", '/') == ["a", "", "b"]
    ensures JavaSplit("ab", '/') == ["ab"]
    ensures JavaSplit("", '/') == [""]
  {
    assert Join(["", "b"], '/') == "/b" by { assert ["", "b"][1..] == ["b"]; }
    SplitOfJoin(["", "b"], '/');
    assert Join(["a", "", "b"], '/') == "a//b" by { assert ["a", "", "b"][1..] == ["", "b"]; }
    SplitOfJoin(["a", "", "b"], '/');
  }

  // ---------------------------------------------------------------------------
  // The application description and look-ups in it
  // ---------------------------------------------------------------------------

  datatype InterfaceDesc = InterfaceDesc(name: string, interfaceType: string)
  datatype ReferenceDesc = ReferenceDesc(path: string, callbackReference: string, referenceType: string)
  datatype ReceptacleDesc = ReceptacleDesc(name: string, reference: ReferenceDesc)
  datatype ComponentDesc = ComponentDesc(name: string, interfaces: seq<InterfaceDesc>, receptacles: seq<ReceptacleDesc>)
  datatype Application = Application(components: seq<ComponentDesc>)

  /** Component `i` is named `component` and its interface `j` is named `name`. */
  predicate InterfaceAt(cs: seq<ComponentDesc>, component: string, name: string, i: int, j: int)
  {
    0 <= i < |cs| && 0 <= j < |cs[i].interfaces| && cs[i].name == component && cs[i].interfaces[j].name == name
  }

  /** Component `i` is named `component` and its receptacle `j` is named `name`. */
  predicate ReceptacleAt(cs: seq<ComponentDesc>, component: string, name: string, i: int, j: int)
  {
    0 <= i < |cs| && 0 <= j < |cs[i].receptacles| && cs[i].name == component && cs[i].receptacles[j].name == name
  }

  /** The first interface from position `from` on that is named `name`. */
  function IndexOfInterface(ifs: seq<InterfaceDesc>, name: string, from: nat): (r: Option<nat>)
    requires from <= |ifs|
    ensures r.Some? ==> from <= r.value < |ifs| && ifs[r.value].name == name
    ensures r.Some? ==> forall j :: from <= j < r.value ==> ifs[j].name != name
    ensures r.None? ==> forall j :: from <= j < |ifs| ==> ifs[j].name != name
    decreases |ifs| - from
  {
    if from == |ifs| then None
    else if ifs[from].name == name then Some(from)
    else IndexOfInterface(ifs, name, from + 1)
  }

  /** The first receptacle from position `from` on that is named `name`. */
  function IndexOfReceptacle(rs: seq<ReceptacleDesc>, name: string, from: nat): (r: Option<nat>)
    requires from <= |rs|
    ensures r.Some? ==> from <= r.value < |rs| && rs[r.value].name == name
    ensures r.Some? ==> forall j :: from <= j < r.value ==> rs[j].name != name
    ensures r.None? ==> forall j :: from <= j < |rs| ==> rs[j].name != name
    decreases |rs| - from
  {
    if from == |rs| then None
    else if rs[from].name == name then Some(from)
    else IndexOfReceptacle(rs, name, from + 1)
  }

  /** The first (component, interface) position, in component-list order and then
      interface-list order, whose names match; components named alike are all searched. */
  function FindInterface(cs: seq<ComponentDesc>, component: string, name: string, from: nat): (r: Option<(nat, nat)>)
    requires from <= |cs|
    ensures r.Some? ==> from <= r.value.0 && InterfaceAt(cs, component, name, r.value.0, r.value.1)
    ensures r.Some? ==> forall i, j :: from <= i < r.value.0 ==> !InterfaceAt(cs, component, name, i, j)
    ensures r.Some? ==> forall j :: 0 <= j < r.value.1 ==> !InterfaceAt(cs, component, name, r.value.0, j)
    ensures r.None? ==> forall i, j :: from <= i ==> !InterfaceAt(cs, component, name, i, j)
    decreases |cs| - from
  {
    if from == |cs| then None
    else if cs[from].name != component then FindInterface(cs, component, name, from + 1)
    else match IndexOfInterface(cs[from].interfaces, name, 0)
      case Some(j) => Some((from, j))
      case None => FindInterface(cs, component, name, from + 1)
  }

  /** As `FindInterface`, for receptacles. */
  function FindReceptacle(cs: seq<ComponentDesc>, component: string, name: string, from: nat): (r: Option<(nat, nat)>)
    requires from <= |cs|
    ensures r.Some? ==> from <= r.value.0 && ReceptacleAt(cs, component, name, r.value.0, r.value.1)
    ensures r.Some? ==> forall i, j :: from <= i < r.value.0 ==> !ReceptacleAt(cs, component, name, i, j)
    ensures r.Some? ==> forall j :: 0 <= j < r.value.1 ==> !ReceptacleAt(cs, component, name, r.value.0, j)
    ensures r.None? ==> forall i, j :: from <= i ==> !ReceptacleAt(cs, component, name, i, j)
    decreases |cs| - from
  {
    if from == |cs| then None
    else if cs[from].name != component then FindReceptacle(cs, component, name, from + 1)
    else match IndexOfReceptacle(cs[from].receptacles, name, 0)
      case Some(j) => Some((from, j))
      case None => FindReceptacle(cs, component, name, from + 1)
  }

  /** `getInterfaceDescription`: the first interface `intf` of a component named
      `component`, or none (null). */
  function GetInterfaceDescription(component: string, intf: string, app: Application): (r: Option<InterfaceDesc>)
    ensures r.None? <==> forall i, j :: !InterfaceAt(app.components, component, intf, i, j)
    ensures r.Some? ==> exists i, j ::
      && InterfaceAt(app.components, component, intf, i, j)
      && r.value == app.components[i].interfaces[j]
      && (forall i', j' :: 0 <= i' < i ==> !InterfaceAt(app.components, component, intf, i', j'))
      && (forall j' :: 0 <= j' < j ==> !InterfaceAt(app.components, component, intf, i, j'))
  {
    match FindInterface(app.components, component, intf, 0)
    case Some((i, j)) => Some(app.components[i].interfaces[j])
    case None => None
  }

  /** `getReceptacleDescription`: the first receptacle `receptacleName` of a component
      named `component`, or none (null). */
  function GetReceptacleDescription(component: string, receptacleName: string, app: Application): (r: Option<ReceptacleDesc>)
    ensures r.None? <==> forall i, j :: !ReceptacleAt(app.components, component, receptacleName, i, j)
    ensures r.Some? ==> exists i, j ::
      && ReceptacleAt(app.components, component, receptacleName, i, j)
      && r.value == app.components[i].receptacles[j]
      && (forall i', j' :: 0 <= i' < i ==> !ReceptacleAt(app.components, component, receptacleName, i', j'))
      && (forall j' :: 0 <= j' < j ==> !ReceptacleAt(app.components, component, receptacleName, i, j'))
  {
    match FindReceptacle(app.components, component, receptacleName, 0)
    case Some((i, j)) => Some(app.components[i].receptacles[j])
    case None => None
  }

  /** `getReceptacleType`: the type of the interface a path `component/interface` names. */
  function GetReceptacleType(path: string, app: Application): (r: Result<string>)
    ensures |JavaSplit(path, '/')| != 2 ==> r == Error("path :" + path + " cannot be deoded")
  {
    var parts := JavaSplit(path, '/');
    if |parts| != 2 then Error("path :" + path + " cannot be deoded")
    else match FindInterface(app.components, parts[0], parts[1], 0)
      case Some((i, j)) => Ok(app.components[i].interfaces[j].interfaceType)
      case None => Error("path :" + path + " cannot be mapped to an interface")
  }

  /** For a well-formed path, the type is that of the interface description with the
      same two names; without one, the path cannot be mapped. */
  lemma ReceptacleTypeOfPath(component: string, intf: string, app: Application)
    requires '/' !in component && '/' !in intf && intf != []
    ensures GetReceptacleType(component + "/" + intf, app)
         == match GetInterfaceDescription(component, intf, app)
            case Some(d) => Ok(d.interfaceType)
            case None => Error("path :" + component + "/" + intf + " cannot be mapped to an interface")
  {
    SplitPath(component, intf);
  }

  /** A path with a trailing separator names the same interface as the path without it. */
  lemma TrailingSeparatorPath(app: Application)
    ensures JavaSplit("a/b/", '/') == JavaSplit("a/b", '/') == ["a", "b"]
    ensures GetReceptacleType("a/b/", app).Ok? == GetReceptacleType("a/b", app).Ok?
    ensures GetReceptacleType("a/b/", app).Ok? ==> GetReceptacleType("a/b/", app) == GetReceptacleType("a/b", app)
  {
    TrailingSeparatorSplit();
    SplitPath("a", "b");
    assert "a" + "/" + "b" == "a/b";
  }

  /** A path holding a single name cannot be decoded. */
  lemma SingleNamePath(app: Application)
    ensures GetReceptacleType("a", app) == Error("path :a cannot be deoded")
  {
    assert '/' !in "a";
    assert JavaSplit("a", '/') == ["a"];
    assert "path :" + "a" + " cannot be deoded" == "path :a cannot be deoded";
  }

  // ---------------------------------------------------------------------------
  // Constructor arguments of a component implementation
  // ---------------------------------------------------------------------------

  /** The annotations a constructor parameter may carry; any other is `OtherAnnotation`. */
  datatype Annotation = PropertyAnnotation(name: string) | ReceptacleAnnotation(name: string) | ContainerRefAnnotation | OtherAnnotation

  datatype ParameterType = StringParam | IntegerParam | FloatParam | DoubleParam | BooleanParam | ClassParam(className: string)

  datatype Parameter = Parameter(parameterType: ParameterType, annotations: seq<Annotation>)

  /** An argument: `NullArgument` is the slot's initial null; a floating-point property
      is kept as its text. */
  datatype Argument =
    | NullArgument
    | StringArgument(text: string)
    | IntegerArgument(value: int)
    | FloatingArgument(text: string)
    | BooleanArgument(truth: bool)
    | ReceptacleArgument(proxy: nat)
    | ContainerArgument

  /** Why an implementation class is rejected. `NoConstructor` is the out-of-bounds
      access to the first of zero constructors; `NullReceptacle` is the dereference of
      the missing entry for an unknown receptacle name. */
  datatype ArgumentError =
    | TooManyConstructors
    | NoConstructor
    | UnannotatedParameter
    | MissingProperty(name: string)
    | NotANumber(text: string)
    | CannotCast(className: string)
    | NullReceptacle(name: string)
    | NotAnnotatedProperly(index: nat)

  datatype Arguments = Arguments(args: seq<Argument>) | Rejected(error: ArgumentError)

  /** What one annotation contributes: nothing, a value for the slot, or an error. */
  datatype Conversion = Skip | Value(arg: Argument) | Fail(error: ArgumentError)

  const IntMin: int := -0x8000_0000
  const IntMax: int := 0x7fff_ffff

  predicate AllDigits(s: string)
  {
    forall i :: 0 <= i < |s| ==> '0' <= s[i] <= '9'
  }

  /** The value of a string of decimal digits. */
  function DigitsValue(s: string): nat
    requires AllDigits(s)
    decreases |s|
  {
    if s == [] then 0 else DigitsValue(s[..|s| - 1]) * 10 + (s[|s| - 1] as int - '0' as int)
  }

  /** `Integer.parseInt`: an optional sign and at least one decimal digit, with a value
      that fits 32 bits; anything else is a NumberFormatException. */
  function ParseInt(s: string): (r: Option<int>)
    ensures r.Some? ==> IntMin <= r.value <= IntMax
    ensures r.Some? ==> s != [] && (s[0] == '-' || s[0] == '+' || '0' <= s[0] <= '9')
  {
    if s == [] then None
    else
      var digits := if s[0] == '-' || s[0] == '+' then s[1..] else s;
      if digits == [] || !AllDigits(digits) then None
      else
        var v: int := if s[0] == '-' then -(DigitsValue(digits) as int) else DigitsValue(digits);
        if IntMin <= v <= IntMax then Some(v) else None
  }

  /** The decimal text of a natural number. */
  function DecimalText(n: nat): (s: string)
    ensures s != [] && AllDigits(s)
    decreases n
  {
    if n < 10 then [('0' as int + n) as char] else DecimalText(n / 10) + [('0' as int + n % 10) as char]
  }

  lemma {:induction false} DigitsOfDecimalText(n: nat)
    ensures DigitsValue(DecimalText(n)) == n
    decreases n
  {
    if n >= 10 {
      DigitsOfDecimalText(n / 10);
      var s := DecimalText(n);
      assert s[..|s| - 1] == DecimalText(n / 10);
    }
  }

  /** Every 32-bit value written in decimal, with a minus sign when negative, parses
      back to itself. */
  lemma ParseIntOfDecimal(n: nat)
    ensures n <= IntMax ==> ParseInt(DecimalText(n)) == Some(n as int)
    ensures n <= -IntMin ==> ParseInt("-" + DecimalText(n)) == Some(-(n as int))
    ensures n > IntMax ==> ParseInt(DecimalText(n)) == None
  {
    DigitsOfDecimalText(n);
    var t := DecimalText(n);
    assert '0' <= t[0] <= '9';
    var negative := "-" + t;
    assert negative[0] == '-' && negative[1..] == t;
  }

  lemma ParseIntRejects()
    ensures ParseInt("") == None && ParseInt("-") == None && ParseInt("12a") == None
  {
    assert !AllDigits("12a") by { assert "12a"[2] == 'a'; }
  }

  /** `Boolean.parseBoolean`: true exactly for "true" in any letter case. */
  function ParseBoolean(s: string): (r: bool)
    ensures r ==> |s| == 4
  {
    |s| == 4 && s[0] in "tT" && s[1] in "rR" && s[2] in "uU" && s[3] in "eE"
  }

  lemma ParseBooleanExamples()
    ensures ParseBoolean("true") && ParseBoolean("TRUE") && ParseBoolean("True")
    ensures !ParseBoolean("yes") && !ParseBoolean("1") && !ParseBoolean("") && !ParseBoolean("truee")
  {
  }

  /** A property's text cast to the parameter's type. */
  function PropertyValue(t: ParameterType, text: string): (c: Conversion)
    ensures c.Skip? == false
  {
    match t
    case StringParam => Value(StringArgument(text))
    case IntegerParam => (match ParseInt(text) case Some(v) => Value(IntegerArgument(v)) case None => Fail(NotANumber(text)))
    case FloatParam => Value(FloatingArgument(text))
    case DoubleParam => Value(FloatingArgument(text))
    case BooleanParam => Value(BooleanArgument(ParseBoolean(text)))
    case ClassParam(name) => Fail(CannotCast(name))
  }

  /** What one annotation of a parameter of type `t` contributes. */
  function Convert(t: ParameterType, a: Annotation, properties: map<string, string>, receptacles: map<string, nat>): (c: Conversion)
    ensures c.Skip? <==> a.OtherAnnotation?
    ensures a.PropertyAnnotation? && a.name !in properties ==> c == Fail(MissingProperty(a.name))
    ensures c.Value? ==> c.arg != NullArgument
  {
    match a
    case PropertyAnnotation(name) =>
      if name !in properties then Fail(MissingProperty(name)) else PropertyValue(t, properties[name])
    case ReceptacleAnnotation(name) =>
      if name !in receptacles then Fail(NullReceptacle(name)) else Value(ReceptacleArgument(receptacles[name]))
    case ContainerRefAnnotation => Value(ContainerArgument)
    case OtherAnnotation => Skip
  }

  datatype Slot = Filled(arg: Argument) | Failed(error: ArgumentError)

  /** The argument for parameter `index`, from its annotations `k` on, `current` being
      the value the earlier ones left: the first error wins, otherwise the last
      recognised annotation; none recognised is an error. */
  function ParameterValue(p: Parameter, index: nat, properties: map<string, string>, receptacles: map<string, nat>,
                          k: nat, current: Option<Argument>): (r: Slot)
    requires k <= |p.annotations|
    ensures r.Filled? && (current.Some? ==> current.value != NullArgument) ==> r.arg != NullArgument
    ensures r == Failed(NotAnnotatedProperly(index))
            <==> current.None? && forall i :: k <= i < |p.annotations| ==> p.annotations[i].OtherAnnotation?
    decreases |p.annotations| - k
  {
    if k == |p.annotations| then
      (if current.Some? then Filled(current.value) else Failed(NotAnnotatedProperly(index)))
    else match Convert(p.parameterType, p.annotations[k], properties, receptacles)
      case Skip => ParameterValue(p, index, properties, receptacles, k + 1, current)
      case Value(arg) => ParameterValue(p, index, properties, receptacles, k + 1, Some(arg))
      case Fail(e) => Failed(e)
  }

  /** Put the arguments already built in front of the outcome for the rest. */
  function Prepend(done: seq<Argument>, rest: Arguments): Arguments
  {
    match rest
    case Arguments(args) => Arguments(done + args)
    case Rejected(e) => Rejected(e)
  }

  /** The arguments for parameters `from` on, in order; the first failing one decides. */
  function ArgumentsFrom(ps: seq<Parameter>, from: nat, properties: map<string, string>, receptacles: map<string, nat>): (r: Arguments)
    requires from <= |ps|
    ensures r.Arguments? ==> |r.args| == |ps| - from && forall i :: 0 <= i < |r.args| ==> r.args[i] != NullArgument
    decreases |ps| - from
  {
    if from == |ps| then Arguments([])
    else match ParameterValue(ps[from], from, properties, receptacles, 0, None)
      case Failed(e) => Rejected(e)
      case Filled(arg) => Prepend([arg], ArgumentsFrom(ps, from + 1, properties, receptacles))
  }

  /** The checks and conversions before an implementation is constructed: exactly one
      public constructor; every parameter annotated (checked for all parameters before
      any is converted); then each parameter converted in order. */
  function ConstructorArguments(constructors: seq<seq<Parameter>>, properties: map<string, string>,
                                receptacles: map<string, nat>): (r: Arguments)
    ensures |constructors| > 1 ==> r == Rejected(TooManyConstructors)
    ensures |constructors| == 0 ==> r == Rejected(NoConstructor)
    ensures r.Arguments? ==> |constructors| == 1 && |r.args| == |constructors[0]|
                             && forall i :: 0 <= i < |r.args| ==> r.args[i] != NullArgument
  {
    if |constructors| > 1 then Rejected(TooManyConstructors)
    else if |constructors| == 0 then Rejected(NoConstructor)
    else if exists i :: 0 <= i < |constructors[0]| && constructors[0][i].annotations == [] then Rejected(UnannotatedParameter)
    else ArgumentsFrom(constructors[0], 0, properties, receptacles)
  }

  /** The inner loop of `getComponentPojoInstance` for parameter `index`: its
      annotations in order, each recognised one overwriting the slot. */
  method FillSlot(p: Parameter, index: nat, properties: map<string, string>, receptacles: map<string, nat>)
    returns (slot: Slot)
    ensures slot == ParameterValue(p, index, properties, receptacles, 0, None)
  {
    var arg := NullArgument;
    var found := false;
    var k := 0;
    while k < |p.annotations|
      invariant 0 <= k <= |p.annotations|
      invariant ParameterValue(p, index, properties, receptacles, 0, None)
             == ParameterValue(p, index, properties, receptacles, k, if found then Some(arg) else None)
    {
      match Convert(p.parameterType, p.annotations[k], properties, receptacles) {
        case Skip =>
        case Value(a) =>
          arg := a;
          found := true;
        case Fail(e) =>
          return Failed(e);
      }
      k := k + 1;
    }
    if !found {
      return Failed(NotAnnotatedProperly(index));
    }
    slot := Filled(arg);
  }

  lemma PrependOne(done: seq<Argument>, arg: Argument, rest: Arguments)
    ensures Prepend(done, Prepend([arg], rest)) == Prepend(done + [arg], rest)
  {
    if rest.Arguments? {
      assert done + ([arg] + rest.args) == done + [arg] + rest.args;
    }
  }

  /** The first loop of `getComponentPojoInstance`: does every parameter carry an
      annotation? */
  method AllAnnotated(ps: seq<Parameter>) returns (b: bool)
    ensures b <==> forall i :: 0 <= i < |ps| ==> ps[i].annotations != []
  {
    for i := 0 to |ps|
      invariant forall j :: 0 <= j < i ==> ps[j].annotations != []
    {
      if ps[i].annotations == [] {
        return false;
      }
    }
    return true;
  }

  /** The argument-building part of `getComponentPojoInstance`: one constructor; every
      parameter annotated; then the argument array filled parameter by parameter. */
  method GetComponentPojoInstance(constructors: seq<seq<Parameter>>, properties: map<string, string>,
                                  receptacles: map<string, nat>) returns (r: Arguments)
    ensures r == ConstructorArguments(constructors, properties, receptacles)
  {
    if |constructors| > 1 {
      return Rejected(TooManyConstructors);
    }
    if |constructors| == 0 {
      return Rejected(NoConstructor);
    }
    var ps := constructors[0];
    var annotated := AllAnnotated(ps);
    if !annotated {
      return Rejected(UnannotatedParameter);
    }
    var args := new Argument[|ps|](_ => NullArgument);
    var i := 0;
    while i < |ps|
      invariant 0 <= i <= |ps|
      invariant ArgumentsFrom(ps, 0, properties, receptacles) == Prepend(args[..i], ArgumentsFrom(ps, i, properties, receptacles))
    {
      var slot := FillSlot(ps[i], i, properties, receptacles);
      if slot.Failed? {
        return Rejected(slot.error);
      }
      args[i] := slot.arg;
      PrependOne(args[..i], slot.arg, ArgumentsFrom(ps, i + 1, properties, receptacles));
      assert args[..i + 1] == args[..i] + [slot.arg];
      i := i + 1;
    }
    assert args[..] == args[..i] + [];
    r := Arguments(args[..]);
  }

  /** A parameter whose annotation `k` names an absent property makes its slot fail,
      whatever the other annotations are. */
  lemma {:induction false} AbsentPropertyFailsSlot(p: Parameter, index: nat, properties: map<string, string>,
                                                   receptacles: map<string, nat>, k: nat, from: nat, current: Option<Argument>)
    requires from <= k < |p.annotations|
    requires p.annotations[k].PropertyAnnotation? && p.annotations[k].name !in properties
    ensures ParameterValue(p, index, properties, receptacles, from, current).Failed?
    decreases k - from
  {
    if from < k {
      match Convert(p.parameterType, p.annotations[from], properties, receptacles)
      case Skip => AbsentPropertyFailsSlot(p, index, properties, receptacles, k, from + 1, current);
      case Value(arg) => AbsentPropertyFailsSlot(p, index, properties, receptacles, k, from + 1, Some(arg));
      case Fail(e) =>
    }
  }

  /** A failing slot rejects the whole constructor. */
  lemma {:induction false} FailedSlotRejects(ps: seq<Parameter>, i: nat, properties: map<string, string>,
                                             receptacles: map<string, nat>, from: nat)
    requires from <= i < |ps|
    requires ParameterValue(ps[i], i, properties, receptacles, 0, None).Failed?
    ensures ArgumentsFrom(ps, from, properties, receptacles).Rejected?
    decreases i - from
  {
    if from < i {
      FailedSlotRejects(ps, i, properties, receptacles, from + 1);
    }
  }

  /** A property annotation naming an absent property rejects the implementation. */
  lemma AbsentPropertyRejected(ps: seq<Parameter>, properties: map<string, string>, receptacles: map<string, nat>, i: nat, k: nat)
    requires i < |ps| && k < |ps[i].annotations|
    requires ps[i].annotations[k].PropertyAnnotation? && ps[i].annotations[k].name !in properties
    ensures ConstructorArguments([ps], properties, receptacles).Rejected?
  {
    AbsentPropertyFailsSlot(ps[i], i, properties, receptacles, k, 0, None);
    FailedSlotRejects(ps, i, properties, receptacles, 0);
  }

  /** A parameter without any recognised annotation rejects the implementation: as
      unannotated when it has none, as not annotated properly otherwise (unless an
      earlier parameter already failed). */
  lemma UnrecognisedParameterRejected(ps: seq<Parameter>, properties: map<string, string>, receptacles: map<string, nat>, i: nat)
    requires i < |ps|
    requires forall k :: 0 <= k < |ps[i].annotations| ==> ps[i].annotations[k] == OtherAnnotation
    ensures ps[i].annotations == [] ==> ConstructorArguments([ps], properties, receptacles) == Rejected(UnannotatedParameter)
    ensures ConstructorArguments([ps], properties, receptacles).Rejected?
  {
    FailedSlotRejects(ps, i, properties, receptacles, 0);
  }

  /** Annotation `k` is the last recognised one of `p` and gives `arg`. */
  predicate LastRecognised(p: Parameter, properties: map<string, string>, receptacles: map<string, nat>, k: int, arg: Argument)
  {
    && 0 <= k < |p.annotations|
    && Convert(p.parameterType, p.annotations[k], properties, receptacles) == Value(arg)
    && forall k' :: k < k' < |p.annotations| ==> p.annotations[k'] == OtherAnnotation
  }

  /** Some annotation of `p` is the last recognised one and gives `arg`. */
  ghost predicate Recognised(p: Parameter, properties: map<string, string>, receptacles: map<string, nat>, arg: Argument)
  {
    exists k :: LastRecognised(p, properties, receptacles, k, arg)
  }

  lemma {:induction false} FilledSlotIsLastRecognised(p: Parameter, index: nat, properties: map<string, string>,
                                                     receptacles: map<string, nat>, from: nat, current: Option<Argument>, arg: Argument)
    requires from <= |p.annotations|
    requires ParameterValue(p, index, properties, receptacles, from, current) == Filled(arg)
    ensures (exists k :: from <= k && LastRecognised(p, properties, receptacles, k, arg))
         || (current == Some(arg) && forall k' :: from <= k' < |p.annotations| ==> p.annotations[k'] == OtherAnnotation)
    decreases |p.annotations| - from
  {
    if from < |p.annotations| {
      match Convert(p.parameterType, p.annotations[from], properties, receptacles)
      case Skip =>
        FilledSlotIsLastRecognised(p, index, properties, receptacles, from + 1, current, arg);
      case Value(a) =>
        FilledSlotIsLastRecognised(p, index, properties, receptacles, from + 1, Some(a), arg);
        if !(exists k :: from + 1 <= k && LastRecognised(p, properties, receptacles, k, arg)) {
          assert LastRecognised(p, properties, receptacles, from, arg);
        }
      case Fail(e) =>
    }
  }

  lemma {:induction false} AcceptedArgumentsFrom(ps: seq<Parameter>, from: nat, properties: map<string, string>,
                                                 receptacles: map<string, nat>, args: seq<Argument>)
    requires from <= |ps|
    requires ArgumentsFrom(ps, from, properties, receptacles) == Arguments(args)
    ensures |args| == |ps| - from
    ensures forall j :: 0 <= j < |args| ==> Recognised(ps[from + j], properties, receptacles, args[j])
    decreases |ps| - from
  {
    if from < |ps| {
      var slot := ParameterValue(ps[from], from, properties, receptacles, 0, None);
      var rest := ArgumentsFrom(ps, from + 1, properties, receptacles);
      assert slot.Filled? && rest.Arguments? && args == [slot.arg] + rest.args;
      AcceptedArgumentsFrom(ps, from + 1, properties, receptacles, rest.args);
      FilledSlotIsLastRecognised(ps[from], from, properties, receptacles, 0, None, slot.arg);
      assert Recognised(ps[from], properties, receptacles, args[0]);
      forall j | 1 <= j < |args|
        ensures Recognised(ps[from + j], properties, receptacles, args[j])
      {
        assert args[j] == rest.args[j - 1] && from + j == (from + 1) + (j - 1);
      }
    }
  }

  /** What accepted arguments are: one per parameter, each the value of that
      parameter's last recognised annotation (so never null). */
  lemma AcceptedArguments(constructors: seq<seq<Parameter>>, properties: map<string, string>,
                          receptacles: map<string, nat>, args: seq<Argument>)
    requires ConstructorArguments(constructors, properties, receptacles) == Arguments(args)
    ensures |constructors| == 1 && |args| == |constructors[0]|
    ensures forall i :: 0 <= i < |args| ==> args[i] != NullArgument
    ensures forall i :: 0 <= i < |args| ==> Recognised(constructors[0][i], properties, receptacles, args[i])
  {
    AcceptedArgumentsFrom(constructors[0], 0, properties, receptacles, args);
    forall i | 0 <= i < |args|
      ensures args[i] != NullArgument
    {
      assert constructors[0][0 + i] == constructors[0][i];
      var k :| LastRecognised(constructors[0][i], properties, receptacles, k, args[i]);
    }
  }
}
