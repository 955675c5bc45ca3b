/** The states of a process (kernel/proc.h). */
module ProcStates {
  datatype State = Unused | Used | Sleeping | Runnable | Running | Zombie
}
