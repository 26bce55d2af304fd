/**
 * SCA_NANDController::Trigger: the controller's output is the NAND of the
 * states of its linked sensors, and that one value is queued for every
 * linked actuator with the logic manager.
 */
module NandController {

  /** Identity of an actuator linked to the controller. */
  type ActId = nat

  /** One call of `AddActiveActuator(actuator, event)` on the logic manager. */
  datatype Activation = Activation(actuator: ActId, event: bool)

  /**
   * The sensor loop: scans the linked sensors' states in link order and
   * stops at the first false one. The result is true iff some sensor is
   * false, i.e. NOT of the AND of all inputs; with no sensors it is false.
   */
  function SensorResult(states: seq<bool>): (r: bool)
    ensures r <==> exists i :: 0 <= i < |states| && !states[i]
  {
    if states == [] then false
    else if !states[0] then true
    else
      var rest := SensorResult(states[1..]);
      assert forall i :: 0 < i < |states| ==> states[i] == states[1..][i - 1];
      rest
  }

  /**
   * The scan stops at the first false sensor: once a prefix of the linked
   * sensors holds a false one, whatever sensors follow do not matter.
   */
  lemma {:induction false} LaterSensorsIgnored(prefix: seq<bool>, rest: seq<bool>)
    requires SensorResult(prefix)
    ensures SensorResult(prefix + rest)
  {
    var i :| 0 <= i < |prefix| && !prefix[i];
    assert (prefix + rest)[i] == prefix[i];
  }

  /**
   * Trigger: the logic manager's queue `queue` gets one activation per
   * linked actuator, in link order, each carrying the same NAND value;
   * nothing already queued changes.
   */
  method Trigger(sensorStates: seq<bool>, actuators: seq<ActId>, queue: seq<Activation>)
    returns (queue': seq<Activation>)
    ensures |queue'| == |queue| + |actuators|
    ensures queue'[..|queue|] == queue
    ensures forall i :: 0 <= i < |actuators| ==>
              queue'[|queue| + i] == Activation(actuators[i], SensorResult(sensorStates))
  {
    var sensorResult := SensorResult(sensorStates);
    queue' := queue;
    for k := 0 to |actuators|
      invariant |queue'| == |queue| + k
      invariant queue'[..|queue|] == queue
      invariant forall i :: 0 <= i < k ==> queue'[|queue| + i] == Activation(actuators[i], sensorResult)
    {
      queue' := queue' + [Activation(actuators[k], sensorResult)];
    }
  }
}
