/**
 `PluginManager.load_plugin`: the first-match search for a plugin class by
 name across the modules of the plugin package.

 The package is abstracted to what the search observes: whether importing the
 package itself fails, its directory path, and, in discovery order, its
 modules. A module is abstracted to whether importing it fails and, in
 `dir()` order, its attributes; an attribute is a name bound to either a class
 or some other value. A class carries the plugin marker when it declares
 `__is_plugin__` or inherits it from a base class.
 */
module PluginManager {
  import opened Common

  /** A Python class: its name, whether it declares the marker itself, its bases. */
  datatype PyClass = PyClass(name: string, declaresMarker: bool, bases: seq<PyClass>)

  /** The value an attribute name is bound to. */
  datatype Value = ClassValue(cls: PyClass) | OtherValue

  /** One name of `dir(module)` and the value `getattr` returns for it. */
  datatype Attribute = Attribute(name: string, value: Value)

  /** A module of the plugin package. */
  datatype PyModule = PyModule(name: string, importFails: bool, attributes: seq<Attribute>)

  /** The plugin package as the search sees it. */
  datatype PluginPackage = PluginPackage(name: string, path: string, importFails: bool, modules: seq<PyModule>)

  /** `hasattr(cls, "__is_plugin__")`: declared by the class or by some ancestor. */
  predicate HasMarker(c: PyClass)
    decreases c
  {
    c.declaresMarker || exists i :: 0 <= i < |c.bases| && HasMarker(c.bases[i])
  }

  /** `c` is `ancestor` or inherits from it, directly or indirectly. */
  predicate DescendsFrom(c: PyClass, ancestor: PyClass)
    decreases c
  {
    c == ancestor || exists i :: 0 <= i < |c.bases| && DescendsFrom(c.bases[i], ancestor)
  }

  /** The base plugin class, which declares the marker. */
  const BasePluginClass := PyClass("BasePlugin", true, [])

  /** The GREGoR plugin class, a subclass of the base plugin declaring no marker of its own. */
  const GregorPluginClass := PyClass("GregorPlugin", false, [BasePluginClass])

  /** An attribute the search returns for `pluginName`: the right name, a class, and marked. */
  predicate Qualifies(a: Attribute, pluginName: string) {
    a.name == pluginName && a.value.ClassValue? && HasMarker(a.value.cls)
  }

  /** Some attribute of the module qualifies. */
  ghost predicate HoldsPlugin(m: PyModule, pluginName: string) {
    exists j :: 0 <= j < |m.attributes| && Qualifies(m.attributes[j], pluginName)
  }

  /** The search stops at this module: its import raises, or it holds the plugin. */
  ghost predicate StopsAt(m: PyModule, pluginName: string) {
    m.importFails || HoldsPlugin(m, pluginName)
  }

  /** Module `k` is the first module at which the search stops. */
  ghost predicate FirstStop(mods: seq<PyModule>, pluginName: string, k: int) {
    && 0 <= k < |mods|
    && StopsAt(mods[k], pluginName)
    && forall i :: 0 <= i < k ==> !StopsAt(mods[i], pluginName)
  }

  /** Attribute `j` is the first qualifying attribute of the list. */
  ghost predicate FirstQualifying(attrs: seq<Attribute>, pluginName: string, j: int) {
    && 0 <= j < |attrs|
    && Qualifies(attrs[j], pluginName)
    && forall i :: 0 <= i < j ==> !Qualifies(attrs[i], pluginName)
  }

  /**
   The attribute loop of one module: the first attribute that qualifies, if
   any. A name match that is not a class, or lacks the marker, is passed over.
   */
  function FindInModule(attrs: seq<Attribute>, pluginName: string): (r: Option<Attribute>)
    ensures r.Some? ==> exists j :: FirstQualifying(attrs, pluginName, j) && attrs[j] == r.value
    ensures r.None? <==> forall j :: 0 <= j < |attrs| ==> !Qualifies(attrs[j], pluginName)
  {
    if |attrs| == 0 then None
    else if Qualifies(attrs[0], pluginName) then
      assert FirstQualifying(attrs, pluginName, 0);
      Some(attrs[0])
    else
      var r := FindInModule(attrs[1..], pluginName);
      assert forall j :: 1 <= j < |attrs| ==> attrs[j] == attrs[1..][j - 1];
      assert forall j :: FirstQualifying(attrs[1..], pluginName, j) ==> FirstQualifying(attrs, pluginName, j + 1);
      r
  }

  /**
   The module loop: import each module in turn and return the first plugin
   found; an import failure is re-raised at once; running out of modules is
   the not-found error.
   */
  function ScanModules(mods: seq<PyModule>, pluginName: string, packagePath: string): (r: Result<Attribute, Error>)
    ensures r.Success? ==> Qualifies(r.value, pluginName)
    ensures r.Success? ==>
      exists k :: FirstStop(mods, pluginName, k) && !mods[k].importFails
                  && exists j :: FirstQualifying(mods[k].attributes, pluginName, j) && mods[k].attributes[j] == r.value
    ensures r.Failure? && r.error.ImportFailure? ==>
      exists k :: FirstStop(mods, pluginName, k) && mods[k].importFails && mods[k].name == r.error.moduleName
    ensures r.Failure? ==> r.error.ImportFailure? || r.error == PluginNotFound(pluginName, packagePath)
    ensures r == Failure(PluginNotFound(pluginName, packagePath)) <==>
      forall k :: 0 <= k < |mods| ==> !StopsAt(mods[k], pluginName)
  {
    if |mods| == 0 then Failure(PluginNotFound(pluginName, packagePath))
    else if mods[0].importFails then
      assert FirstStop(mods, pluginName, 0);
      Failure(ImportFailure(mods[0].name))
    else
      match FindInModule(mods[0].attributes, pluginName)
      case Some(a) =>
        assert FirstStop(mods, pluginName, 0);
        Success(a)
      case None =>
        var r := ScanModules(mods[1..], pluginName, packagePath);
        assert !StopsAt(mods[0], pluginName);
        assert forall k :: 1 <= k < |mods| ==> mods[k] == mods[1..][k - 1];
        assert forall k :: FirstStop(mods[1..], pluginName, k) ==> FirstStop(mods, pluginName, k + 1);
        r
  }

  /**
   `load_plugin`: importing the package itself may raise; otherwise the
   first qualifying class in module-then-attribute order, the first import
   failure met before it, or the not-found error naming the plugin and the
   package path. Nothing is cached: the result is a function of the package
   contents and the name.
   */
  function LoadPlugin(package: PluginPackage, pluginName: string): (r: Result<Attribute, Error>)
    ensures package.importFails ==> r == Failure(ImportFailure(package.name))
    ensures r.Success? ==> Qualifies(r.value, pluginName)
    ensures r.Failure? && r.error.ImportFailure? && !package.importFails ==>
      exists k :: FirstStop(package.modules, pluginName, k) && package.modules[k].importFails
                  && package.modules[k].name == r.error.moduleName
    ensures r.Success? ==>
      exists k :: FirstStop(package.modules, pluginName, k) && !package.modules[k].importFails
                  && exists j :: FirstQualifying(package.modules[k].attributes, pluginName, j)
                                 && package.modules[k].attributes[j] == r.value
    ensures !package.importFails ==>
      (r == Failure(PluginNotFound(pluginName, package.path))
       <==> forall k :: 0 <= k < |package.modules| ==> !StopsAt(package.modules[k], pluginName))
  {
    if package.importFails then Failure(ImportFailure(package.name))
    else ScanModules(package.modules, pluginName, package.path)
  }

  /** Every subclass of the base plugin, however indirect, carries the marker. */
  lemma {:induction false} SubclassesCarryMarker(c: PyClass)
    requires DescendsFrom(c, BasePluginClass)
    ensures HasMarker(c)
    decreases c
  {
    if c != BasePluginClass {
      var i :| 0 <= i < |c.bases| && DescendsFrom(c.bases[i], BasePluginClass);
      SubclassesCarryMarker(c.bases[i]);
    }
  }

  /**
   `hasattr` finds the marker exactly when some class the given one descends
   from, itself included, declares it.
   */
  lemma {:induction false} MarkerComesFromAncestor(c: PyClass)
    ensures HasMarker(c) <==> exists a :: DescendsFrom(c, a) && a.declaresMarker
    decreases c
  {
    if HasMarker(c) {
      if c.declaresMarker {
        assert DescendsFrom(c, c);
      } else {
        var i :| 0 <= i < |c.bases| && HasMarker(c.bases[i]);
        MarkerComesFromAncestor(c.bases[i]);
        var a :| DescendsFrom(c.bases[i], a) && a.declaresMarker;
        assert DescendsFrom(c, a);
      }
    }
    if exists a :: DescendsFrom(c, a) && a.declaresMarker {
      var a :| DescendsFrom(c, a) && a.declaresMarker;
      if c != a {
        var i :| 0 <= i < |c.bases| && DescendsFrom(c.bases[i], a);
        MarkerComesFromAncestor(c.bases[i]);
        assert HasMarker(c.bases[i]);
      }
    }
  }

  /** An attribute bound to a subclass of the base plugin qualifies under its own name. */
  lemma SubclassQualifies(name: string, c: PyClass)
    requires DescendsFrom(c, BasePluginClass)
    ensures Qualifies(Attribute(name, ClassValue(c)), name)
  {
    SubclassesCarryMarker(c);
  }

  /**
   An import failure in a module reached before any plugin is found aborts
   the search, even when a later module holds the plugin.
   */
  lemma {:induction false} ImportFailureAborts(mods: seq<PyModule>, pluginName: string, packagePath: string, k: nat)
    requires k < |mods| && mods[k].importFails
    requires forall i :: 0 <= i < k ==> !HoldsPlugin(mods[i], pluginName)
    ensures ScanModules(mods, pluginName, packagePath).Failure?
    ensures ScanModules(mods, pluginName, packagePath).error.ImportFailure?
    decreases k
  {
    if !mods[0].importFails {
      assert k > 0;
      assert !HoldsPlugin(mods[0], pluginName);
      assert forall i :: 0 <= i < k - 1 ==> mods[1..][i] == mods[i + 1];
      ImportFailureAborts(mods[1..], pluginName, packagePath, k - 1);
    }
  }

  /**
   The GREGoR plugin is found in its module, passing over a non-class
   attribute of the same name in an earlier module and the base plugin class
   its module imports.
   */
  lemma LoadGregorExample()
    ensures
      var package := PluginPackage("plugin_system.plugins", "plugin_system/plugins", false, [
        PyModule("base_plugin", false, [Attribute("BasePlugin", ClassValue(BasePluginClass))]),
        PyModule("decoy", false, [Attribute("GregorPlugin", OtherValue)]),
        PyModule("gregor_plugin", false, [Attribute("BasePlugin", ClassValue(BasePluginClass)),
                                          Attribute("GregorPlugin", ClassValue(GregorPluginClass))])]);
      LoadPlugin(package, "GregorPlugin") == Success(Attribute("GregorPlugin", ClassValue(GregorPluginClass)))
  {
    var base := Attribute("BasePlugin", ClassValue(BasePluginClass));
    var decoy := Attribute("GregorPlugin", OtherValue);
    var gregor := Attribute("GregorPlugin", ClassValue(GregorPluginClass));
    var mods := [PyModule("base_plugin", false, [base]), PyModule("decoy", false, [decoy]),
                 PyModule("gregor_plugin", false, [base, gregor])];
    assert HasMarker(GregorPluginClass) by {
      assert HasMarker(GregorPluginClass.bases[0]);
    }
    assert FindInModule([base], "GregorPlugin") == None;
    assert FindInModule([decoy], "GregorPlugin") == None;
    assert [base, gregor][1..] == [gregor];
    assert FindInModule([base, gregor], "GregorPlugin") == Some(gregor);
    assert mods[1..] == [mods[1], mods[2]] && mods[1..][1..] == [mods[2]];
    assert ScanModules(mods, "GregorPlugin", "plugin_system/plugins") == Success(gregor);
  }
}
