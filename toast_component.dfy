/** The ToastSileo host binding: the component metadata the host registers
    (type identifier, default size, property reducer) and the component that
    forwards the reduced properties to the view. */
module ToastComponent {
  import opened ToastTypes
  import ToastView

  /** A value stored in the host's property tree. */
  datatype Value = BoolValue(b: bool) | NumberValue(n: int) | StringValue(s: string)

  /** The host's property tree, seen as a map from property name to value. */
  type PropertyTree = map<string, Value>

  /** The identifier the component is registered and persisted under. */
  const ComponentType: string := "rad.display.toastsileo"

  /** The identifier the gateway-side Java descriptor declares for the same component. */
  const DescriptorComponentId: string := "rad.display.toastsileo"

  /** The seven property names the reducer reads. */
  const PropKeys: set<string> := {"trigger", "type", "title", "description", "position", "duration", "theme"}

  datatype SizeObject = SizeObject(width: int, height: int)

  /** Lookup with default for a boolean property. */
  function ReadBool(tree: PropertyTree, key: string, default: bool): bool {
    if key in tree && tree[key].BoolValue? then tree[key].b else default
  }

  /** Lookup with default for a numeric property. */
  function ReadNumber(tree: PropertyTree, key: string, default: int): int {
    if key in tree && tree[key].NumberValue? then tree[key].n else default
  }

  /** Lookup with default for a string property. */
  function ReadString(tree: PropertyTree, key: string, default: string): string {
    if key in tree && tree[key].StringValue? then tree[key].s else default
  }

  /** The type identifier; it agrees with the Java descriptor's. */
  function GetComponentType(): (id: string)
    ensures id == DescriptorComponentId
  {
    ComponentType
  }

  /** The footprint given to a newly placed widget. */
  function GetDefaultSize(): (size: SizeObject)
    ensures size.width == 300 && size.height == 300
  {
    SizeObject(300, 300)
  }

  /** Reads the seven properties, each with its own default. */
  function GetPropsReducer(tree: PropertyTree): Props {
    Props(
      ReadBool(tree, "trigger", false),
      ReadString(tree, "type", "info"),
      ReadString(tree, "title", "title"),
      ReadString(tree, "description", "description"),
      ReadString(tree, "position", "bottom-right"),
      ReadNumber(tree, "duration", 4000),
      ReadString(tree, "theme", "light"))
  }

  /** The component: hands every property to the view as it is. */
  function ToastSileoComponent(props: Props): (view: Props)
    ensures view == props
  {
    Props(props.trigger, props.toastType, props.title, props.description,
          props.position, props.duration, props.theme)
  }

  /** A property tree holding exactly the seven properties of `p`. */
  function ToTree(p: Props): (tree: PropertyTree)
    ensures tree.Keys == PropKeys
  {
    map[
      "trigger" := BoolValue(p.trigger),
      "type" := StringValue(p.toastType),
      "title" := StringValue(p.title),
      "description" := StringValue(p.description),
      "position" := StringValue(p.position),
      "duration" := NumberValue(p.duration),
      "theme" := StringValue(p.theme)]
  }

  /** Every stored property has the kind the reducer reads it as. */
  predicate WellKinded(tree: PropertyTree) {
    && ("trigger" in tree ==> tree["trigger"].BoolValue?)
    && ("type" in tree ==> tree["type"].StringValue?)
    && ("title" in tree ==> tree["title"].StringValue?)
    && ("description" in tree ==> tree["description"].StringValue?)
    && ("position" in tree ==> tree["position"].StringValue?)
    && ("duration" in tree ==> tree["duration"].NumberValue?)
    && ("theme" in tree ==> tree["theme"].StringValue?)
  }

  /** An empty tree yields the documented defaults. */
  lemma EmptyTreeGivesDefaults()
    ensures GetPropsReducer(map[]) == Props(false, "info", "title", "description", "bottom-right", 4000, "light")
  {
  }

  /** The string defaults lie in the declared unions. */
  lemma DefaultsAreDeclared()
    ensures DeclaredType(GetPropsReducer(map[]).toastType)
    ensures DeclaredPosition(GetPropsReducer(map[]).position)
    ensures DeclaredTheme(GetPropsReducer(map[]).theme)
  {
    assert Info.Name() == "info";
    assert BottomRight.Name() == "bottom-right";
    assert Light.Name() == "light";
  }

  /** Each present property is read as stored, each absent one takes its own
      default, independently of the others. */
  lemma ReducerReadsEachKey(tree: PropertyTree)
    requires WellKinded(tree)
    ensures var p := GetPropsReducer(tree);
      && p.trigger == (if "trigger" in tree then tree["trigger"].b else false)
      && p.toastType == (if "type" in tree then tree["type"].s else "info")
      && p.title == (if "title" in tree then tree["title"].s else "title")
      && p.description == (if "description" in tree then tree["description"].s else "description")
      && p.position == (if "position" in tree then tree["position"].s else "bottom-right")
      && p.duration == (if "duration" in tree then tree["duration"].n else 4000)
      && p.theme == (if "theme" in tree then tree["theme"].s else "light")
  {
  }

  /** Writing all seven properties and reducing gives them back, whatever
      else the tree held. */
  lemma ReducerInvertsWrite(tree: PropertyTree, p: Props)
    ensures GetPropsReducer(tree + ToTree(p)) == p
  {
  }

  /** A well-kinded tree is reproduced, on the seven keys it holds, by
      writing back what the reducer read. */
  lemma WriteInvertsReducer(tree: PropertyTree)
    requires WellKinded(tree)
    ensures forall k :: k in tree && k in PropKeys ==> ToTree(GetPropsReducer(tree))[k] == tree[k]
  {
  }

  /** The reducer depends only on the seven keys: trees that agree on them
      give the same properties. */
  lemma ReducerIgnoresOtherKeys(t1: PropertyTree, t2: PropertyTree)
    requires forall k :: k in PropKeys ==> (k in t1 <==> k in t2) && (k in t1 ==> t1[k] == t2[k])
    ensures GetPropsReducer(t1) == GetPropsReducer(t2)
  {
    assert "trigger" in PropKeys && "type" in PropKeys && "title" in PropKeys;
    assert "description" in PropKeys && "position" in PropKeys;
    assert "duration" in PropKeys && "theme" in PropKeys;
  }

  /** Setting or removing any key outside the seven leaves the result unchanged. */
  lemma ReducerUnaffectedByOtherKey(tree: PropertyTree, k: string, v: Value)
    requires k !in PropKeys
    ensures GetPropsReducer(tree[k := v]) == GetPropsReducer(tree)
    ensures GetPropsReducer(tree - {k}) == GetPropsReducer(tree)
  {
    ReducerIgnoresOtherKeys(tree[k := v], tree);
    ReducerIgnoresOtherKeys(tree - {k}, tree);
  }

  /** The view receives exactly what the reducer produced, so a firing
      render sends the options built from the tree's values. */
  lemma ViewSeesReducedProps(tree: PropertyTree)
    ensures ToastSileoComponent(GetPropsReducer(tree)) == GetPropsReducer(tree)
    ensures var o := ToastView.MapOptions(ToastSileoComponent(GetPropsReducer(tree)));
      && o.title == ReadString(tree, "title", "title")
      && o.description.markup == ReadString(tree, "description", "description")
      && o.position == ReadString(tree, "position", "bottom-right")
      && o.duration == ReadNumber(tree, "duration", 4000)
  {
  }

  /** A toast fired from an empty tree is an `info` toast with the light
      styling, bottom-right, for 4000 ms. */
  lemma DefaultToast()
    ensures ToastView.DispatchFor(GetPropsReducer(map[])) ==
      ToastView.Dispatch(ToastView.InfoEntry,
        ToastView.Options("title", ToastView.Html("description"), "bottom-right", 4000,
          ToastView.LightFill, ToastView.Styles(ToastView.DescriptionLight)))
  {
  }
}
