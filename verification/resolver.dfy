/** `findCtrlAndMethod`: from a request path to a controller instance and the
    name of the method to call on it. The last path segment names the method;
    the segments before it name a plugin file, `<segments>.js`, or failing
    that the directory file `<segments>/main.js`. */
module Resolver {
  import opened Base
  import opened Strings
  import Prefix
  import Faults

  /** What `oCtrl[name]` evaluates to, reduced to what the router tests. */
  datatype Kind = Undefined | Function | Other

  /** A controller instance, seen through its members: every name that reads
      as something other than `undefined` (inherited members included) maps
      to its kind; any other name reads as `undefined`. */
  datatype Ctrl = Ctrl(members: map<string, Kind>)

  /** The kind of `oCtrl[name]`. */
  function KindOf(c: Ctrl, name: string): Kind
  {
    if name in c.members then c.members[name] else Undefined
  }

  /** The part of the deployment that resolution reads: the working directory,
      the files that exist (`fs.existsSync`), and, for each file that exports
      a class, the controller `new CtrlClass(...)` yields. A file that exists
      but is not in `exports` exports something that is not a constructor. */
  datatype Deployment = Deployment(cwd: string, files: set<string>, exports: map<string, Ctrl>)

  /** A request path split at its last `/`: the plugin namespace before it
      and the method name after it. */
  datatype Segments = Segments(namespace: string, methodName: string)

  /** A resolved dispatch target. */
  datatype Target = Target(namespace: string, methodName: string, ctrlPath: string, ctrl: Ctrl)

  /** The ways resolution fails: the three "requested object does not exist"
      errors, and an existing file whose export cannot be instantiated. */
  datatype ResolveError = MalformedPath | ControllerMissing | NotConstructor | MethodUndefined

  /** The value `findCtrlAndMethod` throws for each failure. */
  function ThrownBy(e: ResolveError): (r: Faults.Thrown)
    ensures r.ThrownError? && Faults.Convertible(r)
  {
    match e
    case MalformedPath => Faults.PlainError(Faults.NotFoundMessage('1'))
    case ControllerMissing => Faults.PlainError(Faults.NotFoundMessage('2'))
    case MethodUndefined => Faults.PlainError(Faults.NotFoundMessage('3'))
    case NotConstructor => Faults.NotAConstructor("CtrlClass")
  }

  /** The text a caught resolution error leaves in the body: `Error: `
      and the not-found message with the cause number, or the `TypeError`
      of a file whose export is not a class. */
  lemma ThrownText(e: ResolveError)
    ensures e == MalformedPath ==> Faults.FaultMessage(ThrownBy(e)) == "Error: " + Faults.NotFoundMessage('1')
    ensures e == ControllerMissing ==> Faults.FaultMessage(ThrownBy(e)) == "Error: " + Faults.NotFoundMessage('2')
    ensures e == MethodUndefined ==> Faults.FaultMessage(ThrownBy(e)) == "Error: " + Faults.NotFoundMessage('3')
    ensures e == NotConstructor ==>
      Faults.FaultMessage(ThrownBy(e)) == "TypeError: " + Faults.NotAConstructor("CtrlClass").message
  {
    match e
    case MalformedPath => Faults.NotFoundText('1');
    case ControllerMissing => Faults.NotFoundText('2');
    case MethodUndefined => Faults.NotFoundText('3');
    case NotConstructor => Faults.TypeErrorText(Faults.NotAConstructor("CtrlClass"));
  }

  /** `pieces = path.split('/')`, rejected when shorter than two; otherwise
      the last piece is the method and the others, joined by `/`, the
      namespace. */
  function SplitTarget(stripped: string): (r: Option<Segments>)
    ensures r.None? <==> '/' !in stripped
    ensures r.Some? ==> '/' !in r.value.methodName && stripped == r.value.namespace + "/" + r.value.methodName
  {
    var pieces := Split(stripped, '/');
    CountPositive('/', stripped);
    if |pieces| < 2 then None
    else
      var init, methodName := pieces[..|pieces| - 1], pieces[|pieces| - 1];
      JoinSplit(stripped, '/');
      assert pieces == init + [methodName];
      JoinSnoc(init, methodName, '/');
      Some(Segments(Join(init, '/'), methodName))
  }

  /** The namespace is everything before the last `/` and the method is
      everything after it. */
  lemma SplitTargetAtLastSlash(stripped: string)
    requires '/' in stripped
    ensures LastIndex(stripped, '/').Some?
    ensures var k := LastIndex(stripped, '/').value;
      SplitTarget(stripped) == Some(Segments(stripped[..k], stripped[k + 1..]))
  {
    var seg := SplitTarget(stripped).value;
    var k := |seg.namespace|;
    assert stripped[k] == '/';
    assert stripped[k + 1..] == seg.methodName;
    LastIndexUnique(stripped, '/', k);
    assert stripped[..k] == seg.namespace;
  }

  /** `cwd + '/plugins/' + namespace + '.js'`. */
  function PrimaryPath(d: Deployment, namespace: string): string
  {
    d.cwd + "/plugins/" + namespace + ".js"
  }

  /** `cwd + '/plugins/' + namespace + '/main.js'`. */
  function FallbackPath(d: Deployment, namespace: string): string
  {
    d.cwd + "/plugins/" + namespace + "/main.js"
  }

  /** The member test `oCtrl[method] === undefined && typeof oCtrl[method]
      !== 'function'`: its second half never matters, so only an undefined
      member is rejected; a member that is defined but not a function passes. */
  predicate MemberMissing(c: Ctrl, methodName: string): (b: bool)
    ensures b <==> KindOf(c, methodName) == Undefined
  {
    KindOf(c, methodName) == Undefined && KindOf(c, methodName) != Function
  }

  /** `findCtrlAndMethod` for a request path and the normalised prefix. */
  function Resolve(d: Deployment, prefix: string, path: string): (r: Result<Target, ResolveError>)
    ensures r == Err(MalformedPath) <==> '/' !in Prefix.Strip(path, prefix)
    ensures r.Ok? ==> Prefix.Strip(path, prefix) == r.value.namespace + "/" + r.value.methodName
    ensures r.Ok? ==> '/' !in r.value.methodName
    ensures r.Ok? ==> r.value.ctrlPath in d.files && r.value.ctrlPath in d.exports
    ensures r.Ok? ==> r.value.ctrl == d.exports[r.value.ctrlPath]
    ensures r.Ok? ==> KindOf(r.value.ctrl, r.value.methodName) != Undefined
  {
    ResolveStripped(d, Prefix.Strip(path, prefix))
  }

  /** Resolution of a path the prefix has already been removed from. */
  function ResolveStripped(d: Deployment, stripped: string): (r: Result<Target, ResolveError>)
    ensures r == Err(MalformedPath) <==> '/' !in stripped
    ensures r.Ok? ==> stripped == r.value.namespace + "/" + r.value.methodName
    ensures r.Ok? ==> '/' !in r.value.methodName
  {
    match SplitTarget(stripped)
    case None => Err(MalformedPath)
    case Some(Segments(ns, methodName)) =>
      var ctrlPath := CtrlPath(d, ns);
      if ctrlPath !in d.files then Err(ControllerMissing)
      else if ctrlPath !in d.exports then Err(NotConstructor)
      else if MemberMissing(d.exports[ctrlPath], methodName) then Err(MethodUndefined)
      else Ok(Target(ns, methodName, ctrlPath, d.exports[ctrlPath]))
  }

  /** The file the controller is loaded from: the primary candidate when it
      exists, the `main.js` fallback otherwise. */
  function CtrlPath(d: Deployment, namespace: string): string
  {
    if PrimaryPath(d, namespace) in d.files then PrimaryPath(d, namespace) else FallbackPath(d, namespace)
  }

  /** Every outcome of resolution for a stripped path cut at its last `/`
      into `namespace` and `methodName`: error (2) exactly when neither
      candidate file exists, error (3) exactly when the member is undefined,
      and otherwise the target built from the primary file when it exists and
      from the fallback when it does not. */
  lemma ResolveOutcomes(d: Deployment, stripped: string, namespace: string, methodName: string)
    requires stripped == namespace + "/" + methodName && '/' !in methodName
    ensures ResolveStripped(d, stripped) == Err(ControllerMissing) <==>
      PrimaryPath(d, namespace) !in d.files && FallbackPath(d, namespace) !in d.files
    ensures ResolveStripped(d, stripped) == Err(NotConstructor) <==>
      CtrlPath(d, namespace) in d.files && CtrlPath(d, namespace) !in d.exports
    ensures ResolveStripped(d, stripped) == Err(MethodUndefined) <==>
      CtrlPath(d, namespace) in d.files && CtrlPath(d, namespace) in d.exports &&
      KindOf(d.exports[CtrlPath(d, namespace)], methodName) == Undefined
    ensures ResolveStripped(d, stripped).Ok? <==>
      CtrlPath(d, namespace) in d.files && CtrlPath(d, namespace) in d.exports &&
      KindOf(d.exports[CtrlPath(d, namespace)], methodName) != Undefined
    ensures ResolveStripped(d, stripped).Ok? && PrimaryPath(d, namespace) in d.files ==>
      ResolveStripped(d, stripped).value ==
        Target(namespace, methodName, PrimaryPath(d, namespace), d.exports[PrimaryPath(d, namespace)])
    ensures ResolveStripped(d, stripped).Ok? && PrimaryPath(d, namespace) !in d.files ==>
      ResolveStripped(d, stripped).value ==
        Target(namespace, methodName, FallbackPath(d, namespace), d.exports[FallbackPath(d, namespace)])
  {
    var k := |namespace|;
    assert stripped[k] == '/';
    assert stripped[k + 1..] == methodName;
    assert stripped[..k] == namespace;
    LastIndexUnique(stripped, '/', k);
    SplitTargetAtLastSlash(stripped);
    assert SplitTarget(stripped) == Some(Segments(namespace, methodName));
  }

  /** A path of one segment, `/a`, is not malformed: its namespace is the
      empty piece before the `/`, so the candidates are `<cwd>/plugins/.js`
      and `<cwd>/plugins//main.js`, and error (2) is raised exactly when
      neither exists. */
  lemma SingleSegment(d: Deployment)
    ensures ResolveStripped(d, "/a") != Err(MalformedPath)
    ensures ResolveStripped(d, "/a") == Err(ControllerMissing) <==>
      d.cwd + "/plugins/.js" !in d.files && d.cwd + "/plugins//main.js" !in d.files
  {
    ResolveOutcomes(d, "/a", "", "a");
    assert PrimaryPath(d, "") == d.cwd + "/plugins/.js";
    assert FallbackPath(d, "") == d.cwd + "/plugins//main.js";
  }
}
