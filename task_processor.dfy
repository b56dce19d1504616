// `useTaskProcessor`: the set of task ids being processed and one abort
// controller per task id, both held in refs and updated in place. A
// controller is modelled by its identity number; `aborted` is the set of
// controllers whose `abort()` has been called.
module TaskProcessor {

  class TaskRegistry {
    var processing: set<string>
    var controllers: map<string, nat>
    var aborted: set<nat>
    var nextController: nat

    /** Every controller handed out so far has an identity below `nextController`. */
    predicate Valid()
      reads this
    {
      (forall t :: t in controllers ==> controllers[t] < nextController)
      && (forall c :: c in aborted ==> c < nextController)
    }

    constructor ()
      ensures Valid()
      ensures processing == {} && controllers == map[] && aborted == {}
    {
      processing := {};
      controllers := map[];
      aborted := {};
      nextController := 0;
    }

    /** `addTask`: a new controller under the id (replacing any earlier one) and the id marked as processing. */
    method AddTask(taskId: string) returns (controller: nat)
      requires Valid()
      modifies this
      ensures Valid()
      ensures controller !in old(aborted) && controller !in old(controllers).Values
      ensures controllers == old(controllers)[taskId := controller]
      ensures processing == old(processing) + {taskId}
      ensures aborted == old(aborted)
    {
      controller := nextController;
      nextController := nextController + 1;
      controllers := controllers[taskId := controller];
      processing := processing + {taskId};
    }

    /** `removeTask`: the id stops processing and its controller, if any, is aborted; the map entry stays. */
    method RemoveTask(taskId: string)
      requires Valid()
      modifies this
      ensures Valid()
      ensures processing == old(processing) - {taskId}
      ensures aborted == old(aborted) + (if taskId in controllers then {controllers[taskId]} else {})
      ensures controllers == old(controllers) && nextController == old(nextController)
    {
      processing := processing - {taskId};
      if taskId in controllers {
        aborted := aborted + {controllers[taskId]};
      }
    }

    /** `cleanupTasks`: every controller in the map is aborted and the processing set is emptied; the map is kept. */
    method CleanupTasks()
      requires Valid()
      modifies this
      ensures Valid()
      ensures processing == {}
      ensures aborted == old(aborted) + controllers.Values
      ensures controllers == old(controllers) && nextController == old(nextController)
    {
      var pending := controllers.Keys;
      while pending != {}
        invariant pending <= controllers.Keys
        invariant Valid()
        invariant aborted == old(aborted) + set t | t in controllers.Keys - pending :: controllers[t]
        invariant controllers == old(controllers) && nextController == old(nextController)
        invariant processing == old(processing)
        decreases pending
      {
        var t :| t in pending;
        aborted := aborted + {controllers[t]};
        pending := pending - {t};
      }
      assert controllers.Values == set t | t in controllers.Keys :: controllers[t];
      processing := {};
    }

    /** `isProcessing`: membership in the processing set. */
    method IsProcessing(taskId: string) returns (b: bool)
      ensures b <==> taskId in processing
    {
      b := taskId in processing;
    }
  }

  /** A task just added is processing, under a controller that has not been aborted. */
  method AddedTaskIsProcessing(registry: TaskRegistry, taskId: string) returns (controller: nat, processing: bool)
    requires registry.Valid()
    modifies registry
    ensures processing && controller !in registry.aborted
    ensures taskId in registry.controllers && registry.controllers[taskId] == controller
  {
    controller := registry.AddTask(taskId);
    processing := registry.IsProcessing(taskId);
  }

  /** After removal the task is no longer processing, its controller is aborted and still mapped. */
  method RemovedTaskStopsProcessing(registry: TaskRegistry, taskId: string) returns (processing: bool)
    requires registry.Valid() && taskId in registry.controllers
    modifies registry
    ensures !processing
    ensures taskId in registry.controllers && registry.controllers[taskId] in registry.aborted
  {
    registry.RemoveTask(taskId);
    processing := registry.IsProcessing(taskId);
  }
}
