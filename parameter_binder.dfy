/**
 * Parameter binding of DefaultDatabaseManager: turning the public properties
 * of a caller's parameter object into named command parameters.
 */
module ParameterBinder {
  import opened Wrappers
  import opened Values
  import opened Strings

  /** One public readable property of a parameter object and its current value. */
  datatype ParamProperty = ParamProperty(name: string, value: Value)

  /**
   * A parameter object as reflection enumerates it: `None` is a null
   * reference, `Some(props)` an object with those properties in order.
   */
  type ParameterObject = Option<seq<ParamProperty>>

  /** A command parameter: its `@`-prefixed name and the value passed unchanged. */
  datatype Binding = Binding(name: string, value: Value)

  /** The placeholder a property answers to in command text. */
  function Placeholder(name: string): (p: string)
    ensures |p| == |name| + 1 && p[0] == '@' && p[1..] == name
  {
    "@" + name
  }

  /** The parameter added for a property. */
  function Bind(p: ParamProperty): Binding
  {
    Binding(Placeholder(p.name), p.value)
  }

  /** The gate in front of every binding: a non-null object with at least one property. */
  predicate VerifyParameters(parameters: ParameterObject): (ok: bool)
    ensures ok <==> parameters.Some? && BindAll(parameters.value) != []
  {
    parameters.Some? && |parameters.value| > 0
  }

  /** A property is referenced by the command when its placeholder occurs in the text. */
  predicate Referenced(cmd: string, p: ParamProperty)
  {
    Contains(cmd, Placeholder(p.name))
  }

  /** The bindings GetParameters produces: the referenced properties, in enumeration order. */
  function SelectBindings(props: seq<ParamProperty>, cmd: string): seq<Binding>
  {
    if props == [] then []
    else
      var last := props[|props| - 1];
      SelectBindings(props[..|props| - 1], cmd) + (if Referenced(cmd, last) then [Bind(last)] else [])
  }

  /** The bindings of the stored-procedure paths: every property, unfiltered. */
  function BindAll(props: seq<ParamProperty>): (r: seq<Binding>)
    ensures |r| == |props|
    ensures forall i :: 0 <= i < |props| ==> r[i] == Bind(props[i])
  {
    if props == [] then [] else BindAll(props[..|props| - 1]) + [Bind(props[|props| - 1])]
  }

  /**
   * `idx` lists, in increasing order, exactly the positions of the referenced
   * properties, and `r[k]` is the binding of the property at `idx[k]`.
   */
  ghost predicate IsSelection(r: seq<Binding>, props: seq<ParamProperty>, cmd: string, idx: seq<nat>)
  {
    && |idx| == |r|
    && (forall k :: 0 <= k < |idx| ==> idx[k] < |props| && r[k] == Bind(props[idx[k]]))
    && (forall k, l :: 0 <= k < l < |idx| ==> idx[k] < idx[l])
    && (forall j :: 0 <= j < |props| ==> (Referenced(cmd, props[j]) <==> j in idx))
  }

  /**
   * The positions SelectBindings keeps: the bindings are exactly the
   * referenced properties, as a subsequence in enumeration order.
   */
  lemma {:induction false} SelectedPositions(props: seq<ParamProperty>, cmd: string) returns (idx: seq<nat>)
    ensures IsSelection(SelectBindings(props, cmd), props, cmd, idx)
  {
    if props == [] {
      return [];
    }
    var n := |props| - 1;
    var init := props[..n];
    var prev := SelectedPositions(init, cmd);
    var r0 := SelectBindings(init, cmd);
    var r := SelectBindings(props, cmd);
    assert forall j :: 0 <= j < n ==> init[j] == props[j];
    if Referenced(cmd, props[n]) {
      idx := prev + [n];
      assert r == r0 + [Bind(props[n])];
      assert forall k :: 0 <= k < |prev| ==> idx[k] == prev[k] && r[k] == r0[k];
      assert forall j :: 0 <= j < n ==> (j in idx <==> j in prev);
    } else {
      idx := prev;
      assert r == r0;
    }
  }

  /** GetParameters never yields more bindings than the object has properties. */
  lemma {:induction false} SelectBindingsCount(props: seq<ParamProperty>, cmd: string)
    ensures |SelectBindings(props, cmd)| <= |props|
    ensures |SelectBindings(props, cmd)| == |props| <==> forall j :: 0 <= j < |props| ==> Referenced(cmd, props[j])
  {
    if props != [] {
      var n := |props| - 1;
      SelectBindingsCount(props[..n], cmd);
      assert forall j :: 0 <= j < n ==> props[..n][j] == props[j];
      if |SelectBindings(props, cmd)| == |props| {
        assert Referenced(cmd, props[n]);
      }
    }
  }

  /** When every placeholder occurs in the text, the filter keeps everything: a procedure binding. */
  lemma {:induction false} SelectAllReferenced(props: seq<ParamProperty>, cmd: string)
    requires forall j :: 0 <= j < |props| ==> Referenced(cmd, props[j])
    ensures SelectBindings(props, cmd) == BindAll(props)
  {
    if props != [] {
      var n := |props| - 1;
      assert forall j :: 0 <= j < n ==> props[..n][j] == props[j];
      SelectAllReferenced(props[..n], cmd);
    }
  }

  /**
   * Substring matching, not tokenising: a property whose name is a prefix of a
   * referenced one is bound too (`Id` is bound by text that mentions only `@IdX`).
   */
  lemma PrefixNameAlsoReferenced(cmd: string, name: string, suffix: string, v: Value, w: Value)
    requires Referenced(cmd, ParamProperty(name + suffix, v))
    ensures Referenced(cmd, ParamProperty(name, w))
  {
    assert Placeholder(name + suffix) == Placeholder(name) + suffix;
    ContainsExtension(cmd, Placeholder(name), suffix);
  }

  /** `{UserId: 7}` against `... WHERE Id=@UserId` yields exactly the one binding `(@UserId, 7)`. */
  lemma UserIdScenario()
    ensures SelectBindings([ParamProperty("UserId", Int(7))], "SELECT * FROM Users WHERE Id=@UserId")
            == [Binding("@UserId", Int(7))]
  {
    var cmd := "SELECT * FROM Users WHERE Id=@UserId";
    var p := ParamProperty("UserId", Int(7));
    assert Placeholder(p.name) == "@UserId";
    ContainsAt(cmd, "@UserId", 29);
    assert Referenced(cmd, p);
    assert [p][..0] == [];
  }

  /** `{Id: 1}` against text that mentions only `@IdX` still binds `@Id`. */
  lemma IdMatchedInsideIdX()
    ensures SelectBindings([ParamProperty("Id", Int(1))], "SELECT @IdX") == [Binding("@Id", Int(1))]
  {
    ContainsAt("SELECT @IdX", "@Id", 7);
    assert [ParamProperty("Id", Int(1))][..0] == [];
  }

  /**
   * The loop of GetParameters: walk the properties in order and add a
   * parameter for each one whose placeholder occurs in the command text.
   */
  method GetParameters(props: seq<ParamProperty>, cmd: string) returns (parameters: seq<Binding>)
    ensures parameters == SelectBindings(props, cmd)
  {
    parameters := [];
    var i := 0;
    while i < |props|
      invariant 0 <= i <= |props|
      invariant parameters == SelectBindings(props[..i], cmd)
    {
      var property := props[i];
      if Contains(cmd, "@" + property.name) {
        parameters := parameters + [Binding("@" + property.name, property.value)];
      }
      assert props[..i + 1][..i] == props[..i];
      i := i + 1;
    }
    assert props[..i] == props;
  }
}
