/** The bot execution factory (BotExecutionFactoryService): finds the
    implementation class of a bot execution by name, then takes its bean
    from the Spring container or constructs it with beans injected into a
    constructor. Reflection and the container are registries: the
    loadable classes by name, and the bean definitions in registration
    order with the assignability relation between class names. */
module BotExecutionFactory {
  import opened Wrappers
  import opened JavaText

  /** A class as getInterfaces lists it. */
  datatype TypeRef = TypeRef(name: string, simpleName: string)

  /** A loaded class: its names, whether it is an interface, its direct
      interfaces, the parameter types of its public constructors in
      declaration order, and whether it declares a no-argument
      constructor. */
  datatype JClass = JClass(
    name: string,
    simpleName: string,
    packageName: string,
    isInterface: bool,
    interfaces: seq<TypeRef>,
    constructors: seq<seq<JClass>>,
    hasNoArgConstructor: bool)

  datatype Bean = Bean(name: string, cls: JClass)

  /** The application context: the bean definitions in registration order,
      and `assignable(t, c)`, which holds when an object of class c is an
      instance of type t. */
  datatype Container = Container(beans: seq<Bean>, assignable: (string, string) -> bool)

  /** A bot execution: a container bean, or a new object of a class built
      from the named beans. */
  datatype Instance = FromContainer(beanName: string) | Constructed(className: string, args: seq<string>)

  const BOT_EXECUTION: string := "com.sap.cap.ai2code.service.bot.BotExecution"
  const SEARCH_PACKAGES: seq<string> := ["com.sap.cap.ai2code.service.bot"]

  // ---------------------------------------------------------------------
  // The container

  function Candidates(bs: seq<Bean>, typeName: string, assignable: (string, string) -> bool): (r: seq<Bean>)
    ensures |r| <= |bs|
    ensures forall b :: b in r <==> b in bs && assignable(typeName, b.cls.name)
  {
    if bs == [] then []
    else
      Candidates(bs[..|bs| - 1], typeName, assignable)
      + (if assignable(typeName, bs[|bs| - 1].cls.name) then [bs[|bs| - 1]] else [])
  }

  /** getBeanNamesForType: the beans of a type, in registration order. */
  function BeansForType(c: Container, typeName: string): seq<Bean> {
    Candidates(c.beans, typeName, c.assignable)
  }

  predicate ContainsBean(c: Container, name: string) {
    exists b :: b in c.beans && b.name == name
  }

  // ---------------------------------------------------------------------
  // getBeanNameByType

  const SUFFIXES: seq<string> := ["Service", "Repository", "Dao", "Manager", "Handler"]

  /** The conventional bean name of a type: its simple name with the first
      character lowercased, for the five suffixes; null otherwise. */
  function BeanNameByType(simpleName: string): (r: Option<string>)
    ensures r.Some? <==> exists s :: s in SUFFIXES && EndsWith(simpleName, s)
    ensures r.Some? ==> && |r.value| == |simpleName| && |simpleName| > 0
                        && r.value[0] == ToLower(simpleName[0]) && r.value[1..] == simpleName[1..]
  {
    if EndsWith(simpleName, "Service") || EndsWith(simpleName, "Repository") || EndsWith(simpleName, "Dao")
       || EndsWith(simpleName, "Manager") || EndsWith(simpleName, "Handler")
    then Some([ToLower(simpleName[0])] + simpleName[1..])
    else None
  }

  // ---------------------------------------------------------------------
  // resolveBeanFromContext

  /** The loop over the direct interfaces: the first bean of the first
      interface that has one. */
  function ByInterfaces(c: Container, ifaces: seq<TypeRef>): (r: Option<string>)
    ensures r.Some? <==> exists k :: 0 <= k < |ifaces| && BeansForType(c, ifaces[k].name) != []
    ensures r.Some? ==> exists k :: && 0 <= k < |ifaces| && BeansForType(c, ifaces[k].name) != []
                                    && r.value == BeansForType(c, ifaces[k].name)[0].name
  {
    if ifaces == [] then None
    else
      var bs := BeansForType(c, ifaces[0].name);
      if bs != [] then Some(bs[0].name)
      else
        var rest := ByInterfaces(c, ifaces[1..]);
        assert forall k :: 1 <= k < |ifaces| ==> ifaces[1..][k - 1] == ifaces[k];
        rest
  }

  /** tryResolveByInterface. */
  function TryResolveByInterface(c: Container, t: JClass): (r: Option<string>)
    ensures r.Some? ==> ContainsBean(c, r.value)
    ensures r.None? <==> && !(t.isInterface && BeansForType(c, t.name) != [])
                         && forall k :: 0 <= k < |t.interfaces| ==> BeansForType(c, t.interfaces[k].name) == []
  {
    var own := BeansForType(c, t.name);
    if t.isInterface && own != [] then
      assert own[0] in own;
      Some(own[0].name)
    else
      var r := ByInterfaces(c, t.interfaces);
      if r.Some? then
        var k :| && 0 <= k < |t.interfaces| && BeansForType(c, t.interfaces[k].name) != []
                 && r.value == BeansForType(c, t.interfaces[k].name)[0].name;
        assert BeansForType(c, t.interfaces[k].name)[0] in BeansForType(c, t.interfaces[k].name);
        r
      else r
  }

  /** resolveBeanFromContext: the name of the bean getBean returns, or null. */
  function ResolveBean(c: Container, t: JClass): (r: Option<string>)
    ensures r.Some? ==> ContainsBean(c, r.value)
    ensures BeansForType(c, t.name) != [] ==> r.Some?
  {
    var bs := BeansForType(c, t.name);
    assert bs != [] ==> bs[0] in bs;
    if |bs| == 1 then Some(bs[0].name)
    else if |bs| > 1 then
      var preferred := BeanNameByType(t.simpleName);
      if preferred.Some? && ContainsBean(c, preferred.value) then preferred else Some(bs[0].name)
    else TryResolveByInterface(c, t)
  }

  /** A resolved bean is a bean of the container. It is of the requested
      type, or of one of its direct interfaces when the type has none,
      except where several beans have the type and a bean carries the
      conventional name: that bean is taken by name, whatever its type. */
  lemma ResolvedBeanOrigin(c: Container, t: JClass)
    ensures var r := ResolveBean(c, t);
      && (r.Some? ==> ContainsBean(c, r.value))
      && (r.Some? && r != BeanNameByType(t.simpleName) && BeansForType(c, t.name) != [] ==>
            exists b :: b in c.beans && b.name == r.value && c.assignable(t.name, b.cls.name))
      && (BeansForType(c, t.name) == [] ==>
            (r.Some? <==> exists k :: 0 <= k < |t.interfaces| && BeansForType(c, t.interfaces[k].name) != []))
  {
    var bs := BeansForType(c, t.name);
    var r := ResolveBean(c, t);
    if bs != [] {
      assert bs[0] in bs;
    } else if r.Some? {
      var k :| && 0 <= k < |t.interfaces| && BeansForType(c, t.interfaces[k].name) != []
               && r.value == BeansForType(c, t.interfaces[k].name)[0].name;
      assert BeansForType(c, t.interfaces[k].name)[0] in BeansForType(c, t.interfaces[k].name);
    }
  }

  // ---------------------------------------------------------------------
  // resolveConstructorArgs

  /** The arguments for a constructor: a bean for every parameter type, or
      null when any one is missing. */
  function ArgsFor(c: Container, ps: seq<JClass>): (r: Option<seq<string>>)
    ensures r.Some? <==> forall k :: 0 <= k < |ps| ==> ResolveBean(c, ps[k]).Some?
    ensures r.Some? ==> |r.value| == |ps| && forall k :: 0 <= k < |ps| ==> r.value[k] == ResolveBean(c, ps[k]).value
  {
    if forall k :: 0 <= k < |ps| ==> ResolveBean(c, ps[k]).Some?
    then Some(seq(|ps|, k requires 0 <= k < |ps| => ResolveBean(c, ps[k]).value))
    else None
  }

  lemma ArgsForMissing(c: Container, ps: seq<JClass>, i: nat)
    requires i < |ps| && ResolveBean(c, ps[i]).None?
    ensures ArgsFor(c, ps).None?
  {
  }

  lemma ArgsForAll(c: Container, ps: seq<JClass>, a: seq<string>)
    requires |a| == |ps| && forall k :: 0 <= k < |ps| ==> ResolveBean(c, ps[k]) == Some(a[k])
    ensures ArgsFor(c, ps) == Some(a)
  {
    assert ArgsFor(c, ps).Some?;
    assert ArgsFor(c, ps).value == a;
  }

  /** resolveConstructorArgs: fills the argument array, giving up at the
      first parameter without a bean. */
  method ResolveConstructorArgs(c: Container, paramTypes: seq<JClass>) returns (r: Option<seq<string>>)
    ensures r == ArgsFor(c, paramTypes)
  {
    var args := new string[|paramTypes|];
    for i := 0 to |paramTypes|
      invariant forall k :: 0 <= k < i ==> ResolveBean(c, paramTypes[k]) == Some(args[k])
    {
      var bean := ResolveBean(c, paramTypes[i]);
      if bean.None? {
        ArgsForMissing(c, paramTypes, i);
        return None;
      }
      args[i] := bean.value;
    }
    ArgsForAll(c, paramTypes, args[..]);
    r := Some(args[..]);
  }

  // ---------------------------------------------------------------------
  // createInstanceWithDependencyInjection

  /** A constructor the injection can use: it takes parameters, and each
      has a bean. */
  predicate Usable(c: Container, ps: seq<JClass>) {
    |ps| > 0 && ArgsFor(c, ps).Some?
  }

  /** The first usable constructor from position i on. */
  function FirstUsable(c: Container, ctors: seq<seq<JClass>>, i: nat): (r: Option<nat>)
    requires i <= |ctors|
    ensures r.Some? ==> i <= r.value < |ctors| && Usable(c, ctors[r.value])
                        && forall j :: i <= j < r.value ==> !Usable(c, ctors[j])
    ensures r.None? ==> forall j :: i <= j < |ctors| ==> !Usable(c, ctors[j])
    decreases |ctors| - i
  {
    if i == |ctors| then None
    else if Usable(c, ctors[i]) then Some(i)
    else FirstUsable(c, ctors, i + 1)
  }

  function NoConstructor(clazz: JClass): Failure {
    BusinessException("No suitable constructor found for class: " + clazz.name)
  }

  /** What createInstanceWithDependencyInjection builds: the first public
      constructor whose parameters all have beans, else the no-argument
      constructor, else the failure. */
  function Injected(c: Container, clazz: JClass): (r: Result<Instance>)
    ensures r.Ok? ==> r.value.Constructed? && r.value.className == clazz.name
  {
    match FirstUsable(c, clazz.constructors, 0)
    case Some(k) => Ok(Constructed(clazz.name, ArgsFor(c, clazz.constructors[k]).value))
    case None =>
      if clazz.hasNoArgConstructor then Ok(Constructed(clazz.name, [])) else Err(NoConstructor(clazz))
  }

  /** The injected constructor is the first usable one, and receives one
      bean per parameter; the no-argument constructor is used only when no
      constructor is usable. */
  lemma InjectedUsesFirstUsable(c: Container, clazz: JClass)
    ensures var r := Injected(c, clazz);
      && (r.Ok? && r.value.args != [] ==>
            exists k :: && 0 <= k < |clazz.constructors| && Usable(c, clazz.constructors[k])
                        && |r.value.args| == |clazz.constructors[k]|
                        && (forall j :: 0 <= j < k ==> !Usable(c, clazz.constructors[j]))
                        && forall a :: 0 <= a < |r.value.args| ==>
                             r.value.args[a] == ResolveBean(c, clazz.constructors[k][a]).value)
      && ((forall j :: 0 <= j < |clazz.constructors| ==> !Usable(c, clazz.constructors[j])) ==>
            r == (if clazz.hasNoArgConstructor then Ok(Constructed(clazz.name, [])) else Err(NoConstructor(clazz))))
  {
    if FirstUsable(c, clazz.constructors, 0).Some? {
      var k := FirstUsable(c, clazz.constructors, 0).value;
      assert Usable(c, clazz.constructors[k]);
    }
  }

  /** createInstanceWithDependencyInjection. */
  method CreateInstanceWithDependencyInjection(c: Container, clazz: JClass) returns (r: Result<Instance>)
    ensures r == Injected(c, clazz)
  {
    var ctors := clazz.constructors;
    for i := 0 to |ctors|
      invariant FirstUsable(c, ctors, 0) == FirstUsable(c, ctors, i)
    {
      if |ctors[i]| > 0 {
        var args := ResolveConstructorArgs(c, ctors[i]);
        if args.Some? {
          return Ok(Constructed(clazz.name, args.value));
        }
      }
    }
    if clazz.hasNoArgConstructor {
      r := Ok(Constructed(clazz.name, []));
    } else {
      r := Err(NoConstructor(clazz));
    }
  }

  // ---------------------------------------------------------------------
  // resolveClass

  /** The first search package holding the class. */
  function InPackages(classes: map<string, JClass>, pkgs: seq<string>, className: string): (r: Option<JClass>)
    ensures r.Some? <==> exists p :: p in pkgs && p + "." + className in classes
    ensures r.Some? ==> exists p :: p in pkgs && p + "." + className in classes && r.value == classes[p + "." + className]
  {
    if pkgs == [] then None
    else if pkgs[0] + "." + className in classes then Some(classes[pkgs[0] + "." + className])
    else
      var rest := InPackages(classes, pkgs[1..], className);
      assert forall p :: p in pkgs[1..] ==> p in pkgs;
      assert forall p :: p in pkgs && p != pkgs[0] ==> p in pkgs[1..];
      rest
  }

  /** The class of the first bean whose simple class name matches. */
  function BySimpleName(bs: seq<Bean>, className: string): (r: Option<JClass>)
    ensures r.Some? <==> exists b :: b in bs && b.cls.simpleName == className
    ensures r.Some? ==> r.value.simpleName == className && exists b :: b in bs && b.cls == r.value
  {
    if bs == [] then None
    else if bs[0].cls.simpleName == className then Some(bs[0].cls)
    else
      var rest := BySimpleName(bs[1..], className);
      assert forall b :: b in bs[1..] ==> b in bs;
      assert forall b :: b in bs && b != bs[0] ==> b in bs[1..];
      rest
  }

  /** resolveClass: a dotted name is loaded as it is; a simple name is
      looked for in the search packages, then among the classes of the
      BotExecution beans. The failures are ClassNotFoundExceptions. */
  function ClassFor(c: Container, classes: map<string, JClass>, className: string): (r: Result<JClass>)
    ensures r.Err? ==> r.error.ClassNotFound?
    ensures r.Ok? && '.' in className ==> className in classes && r.value == classes[className]
    ensures r.Ok? && '.' !in className ==> (exists p :: p in SEARCH_PACKAGES && p + "." + className in classes)
                                           || r.value.simpleName == className
  {
    if '.' in className then
      if className in classes then Ok(classes[className]) else Err(ClassNotFound(className))
    else
      match InPackages(classes, SEARCH_PACKAGES, className)
      case Some(k) => Ok(k)
      case None =>
        match BySimpleName(BeansForType(c, BOT_EXECUTION), className)
        case Some(k) => Ok(k)
        case None => Err(ClassNotFound("Failed to search in Spring context for: " + className))
  }

  /** resolveClass, with its package loop and its loop over the beans. */
  method ResolveClass(c: Container, classes: map<string, JClass>, className: string) returns (r: Result<JClass>)
    ensures r == ClassFor(c, classes, className)
  {
    if '.' in className {
      if className in classes {
        return Ok(classes[className]);
      }
      return Err(ClassNotFound(className));
    }
    for i := 0 to |SEARCH_PACKAGES|
      invariant InPackages(classes, SEARCH_PACKAGES, className) == InPackages(classes, SEARCH_PACKAGES[i..], className)
    {
      var fullClassName := SEARCH_PACKAGES[i] + "." + className;
      if fullClassName in classes {
        return Ok(classes[fullClassName]);
      }
      assert SEARCH_PACKAGES[i..][1..] == SEARCH_PACKAGES[i + 1..];
    }
    var beans := BeansForType(c, BOT_EXECUTION);
    for i := 0 to |beans|
      invariant BySimpleName(beans, className) == BySimpleName(beans[i..], className)
    {
      if beans[i].cls.simpleName == className {
        return Ok(beans[i].cls);
      }
      assert beans[i..][1..] == beans[i + 1..];
    }
    r := Err(ClassNotFound("Failed to search in Spring context for: " + className));
  }

  // ---------------------------------------------------------------------
  // createBotExecutionInstance

  function NotFound(className: string): Failure {
    BusinessException("Implementation class not found: " + className + ". Searched in packages: "
                      + CommaJoin(SEARCH_PACKAGES))
  }

  function CreationFailed(className: string): Failure {
    BusinessException("Failed to create bot execution instance: " + className)
  }

  /** createBotExecutionInstance. A class that is not a BotExecution is
      rejected with a BusinessException that the method's own catch-all
      then replaces by the generic creation failure. Taking the bean by
      class succeeds only when exactly one bean has the class; otherwise
      the lookup throws and the instance is constructed. */
  function ExecutionInstance(c: Container, classes: map<string, JClass>, className: string): (r: Result<Instance>)
    ensures r.Err? ==> r.error == NotFound(className) || r.error == CreationFailed(className)
  {
    match ClassFor(c, classes, className)
    case Err(_) => Err(NotFound(className))
    case Ok(clazz) =>
      if !c.assignable(BOT_EXECUTION, clazz.name) then Err(CreationFailed(className))
      else
        var bs := BeansForType(c, clazz.name);
        if |bs| == 1 then Ok(FromContainer(bs[0].name))
        else
          match Injected(c, clazz)
          case Err(_) => Err(CreationFailed(className))
          case Ok(inst) => Ok(inst)
  }

  /** Only a class that is a BotExecution yields an instance: the one bean
      of that class if there is exactly one, else a new object of that
      class. */
  lemma OnlyBotExecutions(c: Container, classes: map<string, JClass>, className: string)
    ensures var r := ExecutionInstance(c, classes, className);
      r.Ok? ==> && ClassFor(c, classes, className).Ok?
                && var clazz := ClassFor(c, classes, className).value;
                && c.assignable(BOT_EXECUTION, clazz.name)
                && (r.value.FromContainer? <==> |BeansForType(c, clazz.name)| == 1)
                && (r.value.FromContainer? ==> exists b :: b in c.beans && b.name == r.value.beanName
                                                           && c.assignable(clazz.name, b.cls.name))
                && (r.value.Constructed? ==> r.value.className == clazz.name)
  {
    var r := ExecutionInstance(c, classes, className);
    if r.Ok? && r.value.FromContainer? {
      var bs := BeansForType(c, ClassFor(c, classes, className).value.name);
      assert bs[0] in bs;
    }
  }

  /** createBotExecutionInstance. */
  method CreateBotExecutionInstance(c: Container, classes: map<string, JClass>, className: string)
    returns (r: Result<Instance>)
    ensures r == ExecutionInstance(c, classes, className)
  {
    var clazz := ResolveClass(c, classes, className);
    if clazz.Err? {
      return Err(NotFound(className));
    }
    if !c.assignable(BOT_EXECUTION, clazz.value.name) {
      return Err(CreationFailed(className));
    }
    var beans := BeansForType(c, clazz.value.name);
    if |beans| == 1 {
      return Ok(FromContainer(beans[0].name));
    }
    var created := CreateInstanceWithDependencyInjection(c, clazz.value);
    if created.Err? {
      return Err(CreationFailed(className));
    }
    r := created;
  }

  // ---------------------------------------------------------------------
  // getBotExecutionInstanceInfo

  function SimpleNames(ifaces: seq<TypeRef>): (r: seq<string>)
    ensures |r| == |ifaces| && forall k :: 0 <= k < |ifaces| ==> r[k] == ifaces[k].simpleName
  {
    seq(|ifaces|, k requires 0 <= k < |ifaces| => ifaces[k].simpleName)
  }

  function InfoHead(k: JClass): string {
    "BotExecution Instance Info:\n" + "- Class: " + k.name + "\n" + "- Simple Name: " + k.simpleName + "\n"
    + "- Package: " + k.packageName + "\n"
  }

  /** The text getBotExecutionInstanceInfo builds for an instance of class
      k, or for null. */
  function Info(k: Option<JClass>): string {
    match k
    case None => "BotExecution instance is null"
    case Some(cls) =>
      InfoHead(cls)
      + (if cls.interfaces == [] then "" else "- Interfaces: " + CommaJoin(SimpleNames(cls.interfaces)) + "\n")
  }

  lemma Regroup(a: string, b: string, c: string)
    ensures a + (b + c) == a + b + c
  {
  }

  lemma Regroup4(a: string, b: string, c: string, d: string)
    ensures a + b + c + d == a + (b + c + d)
  {
  }

  /** The interface loop of getBotExecutionInstanceInfo: each name, then
      ", " unless it is the last. */
  method AppendNames(sb: string, names: seq<string>) returns (r: string)
    ensures r == sb + CommaJoin(names)
  {
    r := sb;
    for i := 0 to |names|
      invariant r == sb + CommaJoin(names[..i]) + (if 0 < i < |names| then ", " else "")
    {
      if i > 0 {
        CommaJoinSnoc(names[..i], names[i]);
        assert names[..i + 1] == names[..i] + [names[i]];
        Regroup(sb + CommaJoin(names[..i]), ", ", names[i]);
      } else {
        assert names[..1] == [names[0]];
      }
      r := r + names[i];
      if i < |names| - 1 {
        r := r + ", ";
      }
    }
    assert names[..|names|] == names;
  }

  /** getBotExecutionInstanceInfo. */
  method GetBotExecutionInstanceInfo(k: Option<JClass>) returns (info: string)
    ensures info == Info(k)
  {
    if k.None? {
      return "BotExecution instance is null";
    }
    var cls := k.value;
    info := InfoHead(cls);
    var names := SimpleNames(cls.interfaces);
    if |names| > 0 {
      info := AppendNames(info + "- Interfaces: ", names);
      info := info + "\n";
      Regroup4(InfoHead(cls), "- Interfaces: ", CommaJoin(names), "\n");
    }
  }

  lemma EndsWithConcat(a: string, b: string, x: string)
    requires EndsWith(b, x)
    ensures EndsWith(a + b, x)
  {
    assert (a + b)[|a + b| - |x|..] == b[|b| - |x|..];
  }

  lemma EndsWithNewline(c: string, x: string)
    requires EndsWith(c, x)
    ensures EndsWith(c + "\n", x + "\n")
  {
    assert (c + "\n")[|c + "\n"| - |x + "\n"|..] == c[|c| - |x|..] + "\n";
  }

  /** A comma-joined list ends with its last name: no separator follows
      it. */
  lemma CommaJoinEndsWithLast(names: seq<string>)
    requires names != []
    ensures EndsWith(CommaJoin(names), names[|names| - 1])
  {
    var n := |names|;
    if n > 1 {
      assert names == names[..n - 1] + [names[n - 1]];
      CommaJoinSnoc(names[..n - 1], names[n - 1]);
      EndsWithConcat(CommaJoin(names[..n - 1]) + ", ", names[n - 1], names[n - 1]);
    } else {
      assert EndsWith(names[0], names[0]);
    }
  }

  /** The info of an instance with interfaces ends with the last
      interface's name and a newline: no separator trails the list. */
  lemma InfoListsInterfaces(cls: JClass)
    requires cls.interfaces != []
    ensures EndsWith(Info(Some(cls)), cls.interfaces[|cls.interfaces| - 1].simpleName + "\n")
  {
    var names := SimpleNames(cls.interfaces);
    var last := names[|names| - 1];
    CommaJoinEndsWithLast(names);
    EndsWithNewline(CommaJoin(names), last);
    EndsWithConcat("- Interfaces: ", CommaJoin(names) + "\n", last + "\n");
    Regroup("- Interfaces: ", CommaJoin(names), "\n");
    EndsWithConcat(InfoHead(cls), "- Interfaces: " + CommaJoin(names) + "\n", last + "\n");
  }
}
