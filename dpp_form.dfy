/** The passport creation and edit form (DppForm.jsx): the form's fields, the
    draft component and the draft permission, and the handlers that edit them.
    A draft is appended to its list only when its required fields are filled,
    and the draft is then reset. */
module DppForm {
  import opened Wrappers

  datatype Component = Component(name: string, kind: string, supplier: string, sustainabilityScore: int)
  datatype Permission = Permission(role: string, scope: string)

  datatype FormData = FormData(
    productName: string,
    manufacturer: string,
    serialNumber: string,
    status: string,
    components: seq<Component>,
    permissions: seq<Permission>)

  /** The form fields `handleInputChange` is called with. */
  datatype TextField = ProductName | Manufacturer | SerialNumber | Status

  /** The text fields of the two drafts. */
  datatype ComponentField = Name | Kind | Supplier
  datatype PermissionField = Role | Scope

  const InitialForm := FormData("", "", "", "active", [], [])
  const EmptyComponent := Component("", "", "", 0)
  const EmptyPermission := Permission("", "read_only")

  function Get(f: FormData, field: TextField): string
  {
    match field
    case ProductName => f.productName
    case Manufacturer => f.manufacturer
    case SerialNumber => f.serialNumber
    case Status => f.status
  }

  /** `{ ...prev, [field]: value }`: that field reads `value`, every other
      field and both lists are as before. */
  function WithField(f: FormData, field: TextField, value: string): (g: FormData)
    ensures Get(g, field) == value
    ensures forall other :: other != field ==> Get(g, other) == Get(f, other)
    ensures g.components == f.components && g.permissions == f.permissions
  {
    match field
    case ProductName => f.(productName := value)
    case Manufacturer => f.(manufacturer := value)
    case SerialNumber => f.(serialNumber := value)
    case Status => f.(status := value)
  }

  /** `s.filter((_, i) => i !== index)`: the element at `index` removed and the
      others kept in order; an index outside the list removes nothing. */
  function RemoveIndex<T>(s: seq<T>, index: int): (r: seq<T>)
    ensures 0 <= index < |s| ==> r == s[..index] + s[index + 1..]
    ensures !(0 <= index < |s|) ==> r == s
    ensures forall x :: x in r ==> x in s
    decreases |s|
  {
    if s == [] then []
    else
      var last := |s| - 1;
      var r := RemoveIndex(s[..last], index) + (if index == last then [] else [s[last]]);
      assert s == s[..last] + [s[last]];
      if 0 <= index < last then
        assert s[..last][..index] == s[..index];
        assert s[..last][index + 1..] + [s[last]] == s[index + 1..];
        r
      else r
  }

  /** An append followed by removal of the last index restores the list. */
  lemma AddThenRemoveLast<T>(s: seq<T>, x: T)
    ensures RemoveIndex(s + [x], |s|) == s
  {
    assert (s + [x])[..|s|] == s;
  }

  /** Removal at an index moves the later elements one place down. */
  lemma RemoveIndexShifts<T>(s: seq<T>, index: int, j: int)
    requires 0 <= index < |s| && 0 <= j < |s| - 1
    ensures RemoveIndex(s, index)[j] == if j < index then s[j] else s[j + 1]
  {
  }

  /** The addComponent guard: name and type are both filled in. */
  predicate ComponentComplete(c: Component) { c.name != "" && c.kind != "" }

  /** The addPermission guard: the role is filled in. */
  predicate PermissionComplete(p: Permission) { p.role != "" }

  class DppForm {
    var formData: FormData
    var newComponent: Component
    var newPermission: Permission

    /** Every listed entry passed its guard when it was added. */
    predicate Valid()
      reads this
    {
      && (forall c :: c in formData.components ==> ComponentComplete(c))
      && (forall p :: p in formData.permissions ==> PermissionComplete(p))
    }

    /** The initial state: empty texts, status "active", empty lists, and the
        empty drafts. */
    constructor()
      ensures formData == InitialForm && newComponent == EmptyComponent && newPermission == EmptyPermission
      ensures Valid()
    {
      formData := InitialForm;
      newComponent := EmptyComponent;
      newPermission := EmptyPermission;
    }

    /** handleInputChange: sets one form field. */
    method HandleInputChange(field: TextField, value: string)
      modifies this
      ensures formData == WithField(old(formData), field, value)
      ensures newComponent == old(newComponent) && newPermission == old(newPermission)
      ensures old(Valid()) ==> Valid()
    {
      formData := WithField(formData, field, value);
    }

    /** The draft component's text inputs. */
    method SetComponentField(field: ComponentField, value: string)
      modifies this
      ensures newComponent == match field
                              case Name => old(newComponent).(name := value)
                              case Kind => old(newComponent).(kind := value)
                              case Supplier => old(newComponent).(supplier := value)
      ensures formData == old(formData) && newPermission == old(newPermission)
    {
      match field
      case Name => newComponent := newComponent.(name := value);
      case Kind => newComponent := newComponent.(kind := value);
      case Supplier => newComponent := newComponent.(supplier := value);
    }

    /** The score input: `Number.parseInt(text) || 0`, where `parsed` is the
        parse result (`None` for NaN). */
    method SetComponentScore(parsed: Option<int>)
      modifies this
      ensures newComponent == old(newComponent).(sustainabilityScore := if parsed.Some? then parsed.value else 0)
      ensures formData == old(formData) && newPermission == old(newPermission)
    {
      var score := if parsed.Some? && parsed.value != 0 then parsed.value else 0;
      newComponent := newComponent.(sustainabilityScore := score);
    }

    /** The draft permission's inputs. */
    method SetPermissionField(field: PermissionField, value: string)
      modifies this
      ensures newPermission == match field
                               case Role => old(newPermission).(role := value)
                               case Scope => old(newPermission).(scope := value)
      ensures formData == old(formData) && newComponent == old(newComponent)
    {
      match field
      case Role => newPermission := newPermission.(role := value);
      case Scope => newPermission := newPermission.(scope := value);
    }

    /** addComponent: appends the draft and resets it when name and type are
        filled in; otherwise changes nothing. */
    method AddComponent()
      modifies this
      ensures ComponentComplete(old(newComponent)) ==>
                && formData == old(formData).(components := old(formData).components + [old(newComponent)])
                && newComponent == EmptyComponent
      ensures !ComponentComplete(old(newComponent)) ==>
                formData == old(formData) && newComponent == old(newComponent)
      ensures newPermission == old(newPermission)
      ensures old(Valid()) ==> Valid()
    {
      if newComponent.name != "" && newComponent.kind != "" {
        formData := formData.(components := formData.components + [newComponent]);
        newComponent := EmptyComponent;
      }
    }

    /** removeComponent: drops the component at `index`. */
    method RemoveComponent(index: int)
      modifies this
      ensures formData == old(formData).(components := RemoveIndex(old(formData).components, index))
      ensures newComponent == old(newComponent) && newPermission == old(newPermission)
      ensures old(Valid()) ==> Valid()
    {
      formData := formData.(components := RemoveIndex(formData.components, index));
    }

    /** addPermission: appends the draft and resets it when the role is filled
        in; otherwise changes nothing. */
    method AddPermission()
      modifies this
      ensures PermissionComplete(old(newPermission)) ==>
                && formData == old(formData).(permissions := old(formData).permissions + [old(newPermission)])
                && newPermission == EmptyPermission
      ensures !PermissionComplete(old(newPermission)) ==>
                formData == old(formData) && newPermission == old(newPermission)
      ensures newComponent == old(newComponent)
      ensures old(Valid()) ==> Valid()
    {
      if newPermission.role != "" {
        formData := formData.(permissions := formData.permissions + [newPermission]);
        newPermission := EmptyPermission;
      }
    }

    /** removePermission: drops the permission at `index`. */
    method RemovePermission(index: int)
      modifies this
      ensures formData == old(formData).(permissions := RemoveIndex(old(formData).permissions, index))
      ensures newComponent == old(newComponent) && newPermission == old(newPermission)
      ensures old(Valid()) ==> Valid()
    {
      formData := formData.(permissions := RemoveIndex(formData.permissions, index));
    }
  }
}
