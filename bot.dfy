/** The operations of the Bot interface, and the stubs the bot classes
    leave unimplemented: each throws UnsupportedOperationException naming
    the method. */
module Bot {
  import opened Wrappers

  datatype Operation = Execute | ExecuteAsync | Stop | Resume | Cancel | ChatInStreaming | Chat

  /** The Java method name of an operation. */
  function Name(op: Operation): string {
    match op
    case Execute => "execute"
    case ExecuteAsync => "executeAsync"
    case Stop => "stop"
    case Resume => "resume"
    case Cancel => "cancel"
    case ChatInStreaming => "chatInStreaming"
    case Chat => "chat"
  }

  const UNIMPLEMENTED: string := "Unimplemented method '"

  /** What a stub throws. */
  function Unimplemented(op: Operation): (f: Failure)
    ensures f.UnsupportedOperation?
  {
    UnsupportedOperation(UNIMPLEMENTED + Name(op) + "'")
  }

  lemma NameInjective(a: Operation, b: Operation)
    requires Name(a) == Name(b)
    ensures a == b
  {
  }

  /** The message of a stub names its operation: two stubs throw the same
      failure exactly when they stub the same operation. */
  lemma UnimplementedNamesOperation(a: Operation, b: Operation)
    ensures Unimplemented(a) == Unimplemented(b) <==> a == b
  {
    if Unimplemented(a) == Unimplemented(b) {
      var x := UNIMPLEMENTED + Name(a) + "'";
      var y := UNIMPLEMENTED + Name(b) + "'";
      assert |Name(a)| == |Name(b)| by {
        assert |x| == |y|;
      }
      assert Name(a) == x[|UNIMPLEMENTED|..|x| - 1];
      assert Name(b) == y[|UNIMPLEMENTED|..|y| - 1];
      NameInjective(a, b);
    }
  }
}
