/**
 * `ResourceCollector`: triggers the resource monitor's own report to the master and hands
 * nothing to the agent. The resource monitor (CPU, memory and GPU sampling) is not part of
 * this model; `reports` counts the report requests it receives.
 */
module ResourceCollector {
  import opened DataCollector

  class ResourceCollector {
    /** How many times `report_resource` has been requested. */
    var reports: nat

    constructor ()
      ensures reports == 0
    {
      reports := 0;
    }

    /** `is_enabled`: always. */
    predicate IsEnabled() {
      true
    }

    /** `collect_data`: asks the monitor to report and returns None. */
    method CollectData() returns (data: Collected)
      modifies this
      ensures data == NoData
      ensures reports == old(reports) + 1
    {
      reports := reports + 1;
      data := NoData;
    }
  }
}
