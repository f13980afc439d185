/** The constructor of the task base class shared by the controller and the exporter. */
module AsyncTask {
  import opened Wrappers
  import opened Python

  /**
   * Binding the arguments of `AsyncTask.__init__(self, config)`: the call
   * succeeds exactly when `config` is supplied once, either as the single
   * positional argument or as a keyword, and no other argument reaches it.
   */
  function BindConfig(positional: nat, configKeyword: bool, otherKeywords: bool): (o: Outcome<PyError>)
    ensures o.Pass? <==> !otherKeywords && positional + (if configKeyword then 1 else 0) == 1
    ensures o.Fail? ==> o.error == TypeError
  {
    if otherKeywords then Fail(TypeError)          // unexpected keyword argument
    else if positional > 1 then Fail(TypeError)    // too many positional arguments
    else if positional == 1 && configKeyword then Fail(TypeError)  // multiple values for 'config'
    else if positional == 0 && !configKeyword then Fail(TypeError) // missing 'config'
    else Pass
  }
}
