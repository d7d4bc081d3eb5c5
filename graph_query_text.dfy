/** The GraphQL query text that the graph client sends for one simple
    call: the selection set rendered from a field-selection tree, the
    variable declarations and call arguments rendered from the parameters,
    and the variables mapping. */
module GraphQueryText {
  import opened Wrappers

  /** The return types that take no selection set: the scalars of the
      GraphQL specification and the controller's own scalars. */
  function IsScalarType(typeName: string): (b: bool)
    ensures b <==> typeName in {"Int", "Float", "String", "Boolean", "ID", "Data", "Any", "Void", "DateTime"}
  {
    typeName in ["Int", "Float", "String", "Boolean", "ID", "Data", "Any", "Void", "DateTime"]
  }

  /** A field-selection tree as the caller writes it: None, a list of field
      names, or an ordered mapping from field name to a sub-tree (None or
      empty meaning "just the name"). */
  datatype Fields = Null | Names(names: seq<string>) | Tree(entries: seq<Entry>)
  datatype Entry = Entry(name: string, sub: Fields)

  /** Python truthiness of a selection: None and empty lists or mappings are false. */
  predicate Truthy(f: Fields)
  {
    match f
    case Null => false
    case Names(ns) => |ns| > 0
    case Tree(es) => |es| > 0
  }

  /** `', '.join(xs)` and its kin */
  function Join(xs: seq<string>, sep: string): string
  {
    if |xs| == 0 then "" else if |xs| == 1 then xs[0] else xs[0] + sep + Join(xs[1..], sep)
  }

  /** `_StringifyQueryFields`: the selection set `{a, b {c}}` of a tree,
      its entries in the tree's order. */
  function Stringify(f: Fields): (s: string)
    requires !f.Null?
    ensures |s| >= 2 && s[0] == '{' && s[|s| - 1] == '}'
    decreases f, 1
  {
    "{" + Join(Rendered(f), ", ") + "}"
  }

  /** The rendered entries of a tree, in order: list names as they are, a
      mapping entry as its name, followed by its rendered sub-tree when that
      is non-empty. */
  function Rendered(f: Fields): (r: seq<string>)
    ensures f.Names? ==> r == f.names
    ensures f.Tree? ==> |r| == |f.entries| && forall i :: 0 <= i < |r| ==> r[i] == RenderEntry(f.entries[i])
    decreases f, 0
  {
    match f
    case Null => []
    case Names(ns) => ns
    case Tree(es) => seq(|es|, i requires 0 <= i < |es| => RenderEntry(es[i]))
  }

  function RenderEntry(e: Entry): string
    decreases e
  {
    if Truthy(e.sub) then e.name + " " + Stringify(e.sub) else e.name
  }

  /** The selection set of the call: none for a scalar return type whatever
      the fields, `{ __typename }` when the caller selected nothing, and the
      rendered tree otherwise. */
  function QueryFields(returnType: string, fields: Fields): (s: string)
    ensures IsScalarType(returnType) ==> s == ""
    ensures !IsScalarType(returnType) && !Truthy(fields) ==> s == "{ __typename }"
    ensures !IsScalarType(returnType) && Truthy(fields) ==> s == Stringify(fields)
    ensures s != "" <==> !IsScalarType(returnType)
  {
    if IsScalarType(returnType) then ""
    else if !Truthy(fields) then "{ __typename }"
    else Stringify(fields)
  }

  /** A parameter of the call: its name, its declared GraphQL type and its value. */
  datatype Parameter<V> = Parameter(name: string, typeName: string, value: V)

  /** `$name: Type` */
  function Declaration<V>(p: Parameter<V>): string
  {
    "$" + p.name + ": " + p.typeName
  }

  /** `name: $name` */
  function Argument<V>(p: Parameter<V>): string
  {
    p.name + ": $" + p.name
  }

  function Declarations<V>(ps: seq<Parameter<V>>): seq<string>
  {
    seq(|ps|, i requires 0 <= i < |ps| => Declaration(ps[i]))
  }

  function Arguments<V>(ps: seq<Parameter<V>>): seq<string>
  {
    seq(|ps|, i requires 0 <= i < |ps| => Argument(ps[i]))
  }

  /** A parenthesised, comma-separated list, or nothing for an empty one. */
  function Parenthesised(items: seq<string>): string
  {
    if items == [] then "" else "(" + Join(items, ", ") + ")"
  }

  /** The query text of `_CallSimpleGraphAPI`. */
  function Query<V>(queryOrMutation: string, operationName: string, ps: seq<Parameter<V>>,
                    returnType: string, fields: Fields): (q: string)
    ensures var head := queryOrMutation + " " + operationName;
      |head| <= |q| && q[..|head|] == head
    ensures |q| >= 2 && q[|q| - 2..] == "\n}"
  {
    var selection := QueryFields(returnType, fields);
    var arguments := Parenthesised(Arguments(ps));
    var tail := if arguments != "" && selection != "" then " " + selection else selection;
    queryOrMutation + " " + operationName + Parenthesised(Declarations(ps)) + " {\n    "
      + operationName + arguments + tail + "\n}"
  }

  /** Without parameters neither the operation nor the call carries
      parentheses, and the selection set follows the operation name with no
      space between them. */
  lemma QueryWithoutParameters<V>(queryOrMutation: string, operationName: string, returnType: string, fields: Fields)
    ensures Query<V>(queryOrMutation, operationName, [], returnType, fields)
      == queryOrMutation + " " + operationName + " {\n    " + operationName + QueryFields(returnType, fields) + "\n}"
  {
  }

  /** With parameters the declarations and the arguments are both
      parenthesised, and a selection set is set off from the arguments by a
      space. */
  lemma QueryWithParameters<V>(queryOrMutation: string, operationName: string, ps: seq<Parameter<V>>,
                               returnType: string, fields: Fields)
    requires ps != []
    ensures var selection := QueryFields(returnType, fields);
      Query(queryOrMutation, operationName, ps, returnType, fields)
      == queryOrMutation + " " + operationName + ("(" + Join(Declarations(ps), ", ") + ")") + " {\n    "
         + operationName + ("(" + Join(Arguments(ps), ", ") + ")")
         + (if selection == "" then "" else " " + selection) + "\n}"
  {
    assert Declarations(ps) != [] && Arguments(ps) != [] by {
      assert |Declarations(ps)| == |Arguments(ps)| == |ps|;
    }
  }

  /** For a scalar return type the call ends right after its arguments: the
      only braces of the query are those of the operation body. */
  lemma ScalarQueryHasNoSelection<V>(queryOrMutation: string, operationName: string, ps: seq<Parameter<V>>,
                                     returnType: string, fields: Fields)
    requires IsScalarType(returnType)
    ensures Query(queryOrMutation, operationName, ps, returnType, fields)
      == queryOrMutation + " " + operationName + Parenthesised(Declarations(ps)) + " {\n    "
         + operationName + Parenthesised(Arguments(ps)) + "\n}"
  {
  }

  /** No parameter after the `i`-th and before the `k`-th has its name. */
  predicate LastOfName<V>(ps: seq<Parameter<V>>, i: nat, k: nat)
    requires i < |ps| && k <= |ps|
  {
    forall j :: i < j < k ==> ps[j].name != ps[i].name
  }

  /** The variables mapping: every parameter name, mapped to the value of
      the last parameter of that name (later assignments overwrite). */
  method BuildVariables<V>(ps: seq<Parameter<V>>) returns (variables: map<string, V>)
    ensures variables.Keys == set i | 0 <= i < |ps| :: ps[i].name
    ensures forall i :: 0 <= i < |ps| && LastOfName(ps, i, |ps|) ==> variables[ps[i].name] == ps[i].value
  {
    variables := map[];
    for k := 0 to |ps|
      invariant variables.Keys == set i | 0 <= i < k :: ps[i].name
      invariant forall i :: 0 <= i < k && LastOfName(ps, i, k) ==> variables[ps[i].name] == ps[i].value
    {
      variables := variables[ps[k].name := ps[k].value];
    }
  }

  /** The timeout of the call, 5.0 seconds unless given. */
  function Timeout(timeout: Option<real>): (t: real)
    ensures timeout.None? ==> t == 5.0
    ensures timeout.Some? ==> t == timeout.value
  {
    if timeout.None? then 5.0 else timeout.value
  }

  /** What `_CallSimpleGraphAPI` hands to the transport. */
  datatype Request<V> = Request(query: string, variables: map<string, V>, timeout: real)

  /** The request of `_CallSimpleGraphAPI`: its query text, its variables and its timeout. */
  method BuildRequest<V>(queryOrMutation: string, operationName: string, ps: seq<Parameter<V>>,
                         returnType: string, fields: Fields, timeout: Option<real>)
    returns (request: Request<V>)
    ensures request.query == Query(queryOrMutation, operationName, ps, returnType, fields)
    ensures request.timeout == Timeout(timeout)
    ensures request.variables.Keys == set i | 0 <= i < |ps| :: ps[i].name
    ensures forall i :: 0 <= i < |ps| && LastOfName(ps, i, |ps|) ==> request.variables[ps[i].name] == ps[i].value
  {
    var variables := BuildVariables(ps);
    request := Request(Query(queryOrMutation, operationName, ps, returnType, fields), variables, Timeout(timeout));
  }
}
