/** Run-time class records: every class has a metaclass with a kind, a
    name, a superclass and a list of interfaces to which new ones are
    prepended. */
module SObj {

  datatype ClassType = Class | Interface

  /** The name the root class's metaclass carries: the namespace macro
      stringised and joined with ".SObject". */
  const SObjectClassName: string := "everest.SObject"

  class MetaClass {
    /** `m_eType` and `m_pszClassName`: fixed at construction. */
    const kind: ClassType
    const className: string
    /** `m_pSuperClass`. */
    var superClass: MetaClass?
    /** The list from `m_pHeadIntf` on, head first. Its nodes are never
        changed once linked in, so the list is a value. */
    var interfaces: seq<MetaClass?>

    /** `MetaClass(type, name)`: no superclass. The source leaves the
        interface head uninitialised; the model starts the list empty. */
    constructor (kind: ClassType, name: string)
      ensures this.kind == kind && className == name
      ensures superClass == null && interfaces == []
    {
      this.kind := kind;
      className := name;
      superClass := null;
      interfaces := [];
    }

    /** `GetClassName()`. */
    function GetClassName(): (r: string)
      ensures r == className
    {
      className
    }

    /** `GetSuperClass()`: the superclass last set. */
    function GetSuperClass(): (r: MetaClass?)
      reads this
      ensures r == superClass
    {
      superClass
    }

    /** `SetSuperClass(m)`: the superclass alone changes. */
    method SetSuperClass(m: MetaClass?)
      modifies this`superClass
      ensures GetSuperClass() == m && interfaces == old(interfaces)
    {
      superClass := m;
    }

    /** `AddInterface(m)`: `m` becomes the head, the old list follows as it
        was; kind, name and superclass stay. */
    method AddInterface(m: MetaClass?)
      modifies this`interfaces
      ensures interfaces == [m] + old(interfaces)
      ensures superClass == old(superClass)
    {
      interfaces := [m] + interfaces;
    }
  }

  /** The static data that exists once the program is loaded:
      `SObject::S_SObject_Meta`, created by static initialisation. */
  class Statics {
    const sobjectMeta: MetaClass

    /** `new SObject_MetaClass()`: a Class named "everest.SObject" with no
        superclass and no interface. */
    constructor ()
      ensures fresh(sobjectMeta)
      ensures sobjectMeta.kind == Class && sobjectMeta.className == SObjectClassName
      ensures sobjectMeta.superClass == null && sobjectMeta.interfaces == []
    {
      sobjectMeta := new MetaClass(Class, SObjectClassName);
    }
  }

  /** `SObject::Meta()`, the static accessor: needs no object. */
  function SObjectMeta(statics: Statics): (r: MetaClass)
    ensures r == statics.sobjectMeta
  {
    statics.sobjectMeta
  }

  /** A plain `SObject`: its class is the root class. */
  class SObject {
    const statics: Statics

    constructor (statics: Statics)
      ensures this.statics == statics
    {
      this.statics := statics;
    }

    /** `GetMetaClass()` on a plain `SObject`: the metaclass `Meta()`
        returns. */
    function GetMetaClass(): (r: MetaClass)
      ensures r == SObjectMeta(statics)
    {
      statics.sobjectMeta
    }
  }

  /** The class records a program with one interface and one class
      deriving from `SObject` builds: the derived metaclass constructor
      calls `SetSuperClass(SObject::Meta())` and then `AddInterface`. A plain
      object reports the root class name, the derived record its own name,
      its superclass the root class name, and the interface heads its list.
      The root statics are built first: the program relies on that order of
      initialisation, which C++ does not fix across translation units. */
  method DerivedClassRecord() returns (rootName: string, derivedName: string, superName: string,
                                       intfHead: MetaClass?, intfs: nat, kind: ClassType)
    ensures rootName == SObjectClassName && derivedName == "STestObject"
    ensures superName == SObjectClassName
    ensures intfHead != null && intfHead.kind == Interface && intfHead.className == "ITestIntf"
    ensures intfs == 1 && kind == Class
  {
    var statics := new Statics();
    var intf := new MetaClass(Interface, "ITestIntf");
    var derived := new MetaClass(Class, "STestObject");
    derived.SetSuperClass(SObjectMeta(statics));
    derived.AddInterface(intf);
    var plain := new SObject(statics);
    rootName := plain.GetMetaClass().GetClassName();
    derivedName := derived.GetClassName();
    superName := derived.GetSuperClass().GetClassName();
    intfHead, intfs, kind := derived.interfaces[0], |derived.interfaces|, derived.kind;
  }
}
