// runtime.LoxClass and runtime.LoxInstance (lox/runtime.py:35-59). A class
// object carries only its name: the source gives it no method table and no
// base class, and an instance carries only a reference to its class.
module Objects {

  class LoxClass {
    const name: string

    constructor (name: string)
      ensures this.name == name
    {
      this.name := name;
    }

    /** `LoxClass.__call__`: whatever the arguments, a fresh instance of
        this class. */
    method Call<A>(args: seq<A>) returns (instance: LoxInstance)
      ensures fresh(instance) && instance.loxClass == this
    {
      instance := new LoxInstance(this);
    }

    /** `LoxClass.__str__`. */
    function Str(): (s: string)
      ensures s == name
    {
      name
    }
  }

  class LoxInstance {
    const loxClass: LoxClass

    constructor (loxClass: LoxClass)
      ensures this.loxClass == loxClass
    {
      this.loxClass := loxClass;
    }

    /** `LoxInstance.__str__`: the class name followed by " instance". */
    function Str(): (s: string)
      ensures |s| == |loxClass.Str()| + 9
      ensures s[..|loxClass.Str()|] == loxClass.Str() && s[|loxClass.Str()|..] == " instance"
    {
      loxClass.name + " instance"
    }
  }
}
