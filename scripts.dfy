/** The script component (`PythonScript`): which script class drives an
    entity, the arguments to build it with, and, once built, the script
    object itself. */
module Scripts {
  import opened Values

  /** `scriptObject` (the C++ field `object`) is the default (None) until the bridge realizes it. */
  datatype PythonScript = PythonScript(moduleName: string, className: string, args: seq<Value>, scriptObject: Value)

  /** `unpack_args`: append the remaining arguments one at a time. */
  function UnpackArgs(acc: seq<Value>, rest: seq<Value>): (r: seq<Value>)
    ensures r == acc + rest
    decreases |rest|
  {
    if rest == [] then acc
    else
      assert acc + rest == (acc + [rest[0]]) + rest[1..];
      UnpackArgs(acc + [rest[0]], rest[1..])
  }

  /** `PythonScript(module, cls, args...)`: to be realized later; the
      arguments are kept in call order. */
  function FromClass(moduleName: string, className: string, args: seq<Value>): (s: PythonScript)
    ensures s.moduleName == moduleName && s.className == className
    ensures s.args == args
    ensures s.scriptObject == NoneValue && !Truthy(s.scriptObject)
  {
    PythonScript(moduleName, className, UnpackArgs([], args), NoneValue)
  }

  /** `PythonScript(object)`: wraps an existing script object; no arguments,
      and module and class stay empty. */
  function FromObject(scriptObject: Value): (s: PythonScript)
    ensures s.scriptObject == scriptObject
    ensures s.args == [] && s.moduleName == "" && s.className == ""
  {
    PythonScript("", "", [], scriptObject)
  }
}
