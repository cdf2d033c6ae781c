/** The enumerations of the data model, one datatype per `str` enum. */
module Enums {

  datatype OrganismType = Predator | Herbivore | Omnivore | Pollinator

  datatype PlantType = Tree | Shrub | Herb | Flower

  datatype DietType = Carnivore | HerbivoreDiet | OmnivoreDiet | Nectarivore

  /** Used both for an organism's activity cycle and for an ecosystem's clock phase. */
  datatype ActivityCycle = Diurnal | Nocturnal | Crepuscular

  datatype SocialBehavior = Solitary | Pack | Herd

  datatype Speed = Slow | Normal | Fast

  datatype SimulationStatus = Processing | Finished

  datatype EnvironmentType = Desert | Rainforest | Savanna | Swamp | Mountain | Taiga | Tundra
}
