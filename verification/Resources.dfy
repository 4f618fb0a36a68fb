/** The static resource catalogue: category, unit volume in millilitres, stack limit. */
module Resources {
  import opened Wrappers

  type ResourceId = nat

  datatype Category = RawMineral | RefinedAlloy | Energy | ManufacturedComponent

  datatype Definition = Definition(category: Category, unitVolumeMl: nat, stackLimit: nat)

  /** Every catalogued resource stacks, and no unit is smaller than half a litre. */
  function Lookup(id: ResourceId): (def: Option<Definition>)
    ensures def.Some? ==> 50 <= def.value.stackLimit <= 5000
    ensures def.Some? ==> 500 <= def.value.unitVolumeMl <= 10000
  {
    match id
    case 1 => Some(Definition(RawMineral, 5000, 1000))
    case 2 => Some(Definition(RawMineral, 4000, 1000))
    case 3 => Some(Definition(RawMineral, 6000, 2000))
    case 4 => Some(Definition(RawMineral, 5000, 1000))
    case 10 => Some(Definition(RefinedAlloy, 3000, 500))
    case 11 => Some(Definition(RefinedAlloy, 2000, 500))
    case 12 => Some(Definition(RefinedAlloy, 3000, 500))
    case 13 => Some(Definition(RefinedAlloy, 4000, 500))
    case 14 => Some(Definition(RefinedAlloy, 3000, 250))
    case 20 => Some(Definition(Energy, 1000, 500))
    case 30 => Some(Definition(ManufacturedComponent, 2000, 500))
    case 31 => Some(Definition(ManufacturedComponent, 2000, 250))
    case 32 => Some(Definition(ManufacturedComponent, 500, 5000))
    case 33 => Some(Definition(ManufacturedComponent, 10000, 50))
    case _ => None
  }
}
